/**
 * Properties of the run and point summaries of evaluate_westgard and of the
 * short rule labels extract_rule_short (qc_core.py) derives from a point's
 * messages.
 */
module ReportFacts {
  import opened Wrappers
  import opened SigmaRules
  import opened Westgard
  import opened Strings
  import opened Messages
  import opened Report
  import opened RuleShort
  import opened WestgardFacts

  // -----------------------------------------------------------------------
  // Messages

  /** A message starts and ends with a non-space character, and its first word is the rule's short name. */
  lemma MessageShape(Z: Matrix, width: nat, labels: seq<string>, i: nat, h: Hit)
    requires IsMatrix(Z, width) && i < |Z| && |labels| == |Z| && WellFormed(Z, width, i, h)
    ensures Trimmed(Message(Z, width, labels, i, h))
    ensures FirstToken(Message(Z, width, labels, i, h)) == Prefix(h.check)
  {
    var m, p := Message(Z, width, labels, i, h), Prefix(h.check);
    assert m[0] == p[0];
    FirstTokenOf(p, m[|p| + 1..]);
  }

  /** Every message of a set of hits is a trimmed message of one of them, free of ';' when the labels are. */
  lemma MessagesOfShape(Z: Matrix, width: nat, labels: seq<string>, i: nat, hs: set<Hit>, m: string)
    requires IsMatrix(Z, width) && i < |Z| && |labels| == |Z| && m in MessagesOf(Z, width, labels, i, hs)
    ensures m != [] && Trimmed(m) && (NoSeparator(labels) ==> ';' !in m)
    ensures exists h :: h in hs && WellFormed(Z, width, i, h) && FirstToken(m) == Prefix(h.check)
  {
    var h :| h in hs && WellFormed(Z, width, i, h) && m == Message(Z, width, labels, i, h);
    MessageShape(Z, width, labels, i, h);
  }

  /** A message of a run's hits is also a message of the point of the hit's first level. */
  lemma MessageReachesPoint(Z: Matrix, width: nat, labels: seq<string>, i: nat, hs: set<Hit>, m: string)
    requires IsMatrix(Z, width) && i < |Z| && |labels| == |Z| && m in MessagesOf(Z, width, labels, i, hs)
    ensures exists l :: 0 <= l < width && m in MessagesOf(Z, width, labels, i, Implicating(hs, l))
  {
    var h :| h in hs && WellFormed(Z, width, i, h) && m == Message(Z, width, labels, i, h);
    var l := h.levels[0];
    assert h in Implicating(hs, l);
  }

  /** A point's messages are among its run's messages. */
  lemma PointMessagesWithinRun(Z: Matrix, width: nat, labels: seq<string>, active: set<RuleCode>, i: nat, l: nat)
    requires IsMatrix(Z, width) && i < |Z| && |labels| == |Z|
    ensures PointRejects(Z, width, labels, active, i, l) <= RunRejects(Z, width, labels, active, i)
    ensures PointWarnings(Z, width, labels, i, l) <= RunWarnings(Z, width, labels, i)
  {
  }

  // -----------------------------------------------------------------------
  // Statuses

  /** A join of messages is empty exactly when there are none. */
  lemma JoinEmpty(ms: seq<string>, sep: string)
    requires forall k :: 0 <= k < |ms| ==> ms[k] != []
    ensures Join(ms, sep) == [] <==> ms == []
  {
    if |ms| >= 2 {
      assert Join(ms, sep) == ms[0] + sep + Join(ms[1..], sep);
    }
  }

  /** The display text is empty exactly when there is nothing to display. */
  lemma DisplayEmpty(rejs: set<string>, warns: set<string>)
    requires [] !in rejs && [] !in warns
    ensures Display(rejs, warns) == [] <==> rejs == {} && warns == {}
  {
    var a, b := SortedOf(rejs), SortedOf(warns);
    SortedOfMembers(rejs);
    SortedOfMembers(warns);
    var ms := a + b;
    forall k | 0 <= k < |ms| ensures ms[k] != [] {
      if k >= |a| {
        assert ms[k] == b[k - |a|];
      }
    }
    JoinEmpty(ms, "; ");
  }

  /** A run passes exactly when its violation text is empty. */
  lemma RunPassIffNoViolations(Z: Matrix, width: nat, labels: seq<string>, active: set<RuleCode>, i: nat)
    requires IsMatrix(Z, width) && i < |Z| && |labels| == |Z|
    ensures RunRowAt(Z, width, labels, active, i).status == Pass <==> RunRowAt(Z, width, labels, active, i).violations == []
  {
    var R, W := RunRejects(Z, width, labels, active, i), RunWarnings(Z, width, labels, i);
    if [] in R { MessagesOfShape(Z, width, labels, i, RejHits(Z, width, active, i), []); }
    if [] in W { MessagesOfShape(Z, width, labels, i, WarnHits(Z, width, i), []); }
    DisplayEmpty(R, W);
  }

  /** A point passes exactly when its rule text is empty. */
  lemma PointPassIffNoRules(Z: Matrix, width: nat, labels: seq<string>, active: set<RuleCode>, i: nat, l: nat)
    requires IsMatrix(Z, width) && i < |Z| && |labels| == |Z|
    ensures PointRowAt(Z, width, labels, active, i, l).status == Pass
        <==> PointRowAt(Z, width, labels, active, i, l).ruleCodes == []
  {
    var R, W := PointRejects(Z, width, labels, active, i, l), PointWarnings(Z, width, labels, i, l);
    if [] in R { MessagesOfShape(Z, width, labels, i, Implicating(RejHits(Z, width, active, i), l), []); }
    if [] in W { MessagesOfShape(Z, width, labels, i, Implicating(WarnHits(Z, width, i), l), []); }
    DisplayEmpty(R, W);
  }

  /** Well-formed hits yield a message exactly when there is one. */
  lemma MessagesOfEmpty(Z: Matrix, width: nat, labels: seq<string>, i: nat, hs: set<Hit>)
    requires IsMatrix(Z, width) && i < |Z| && |labels| == |Z|
    requires forall h :: h in hs ==> WellFormed(Z, width, i, h)
    ensures MessagesOf(Z, width, labels, i, hs) == {} <==> hs == {}
  {
    if hs != {} {
      var h :| h in hs;
      assert Message(Z, width, labels, i, h) in MessagesOf(Z, width, labels, i, hs);
    }
  }

  /** The status of run i, in terms of its hits. */
  lemma RunStatus(Z: Matrix, width: nat, labels: seq<string>, active: set<RuleCode>, i: nat)
    requires IsMatrix(Z, width) && i < |Z| && |labels| == |Z|
    ensures RunRowAt(Z, width, labels, active, i).status
         == if RejHits(Z, width, active, i) != {} then Reject
            else if WarnHits(Z, width, i) != {} then Warning else Pass
  {
    forall h | h in RejHits(Z, width, active, i) ensures WellFormed(Z, width, i, h) {
      RejHitsWellFormed(Z, width, active, i, h);
    }
    forall h | h in WarnHits(Z, width, i) ensures WellFormed(Z, width, i, h) {
      WarnHitsWellFormed(Z, width, i, h);
    }
    MessagesOfEmpty(Z, width, labels, i, RejHits(Z, width, active, i));
    MessagesOfEmpty(Z, width, labels, i, WarnHits(Z, width, i));
  }

  /** The status of point (i, l), in terms of the run's hits that implicate level l. */
  lemma PointStatus(Z: Matrix, width: nat, labels: seq<string>, active: set<RuleCode>, i: nat, l: nat)
    requires IsMatrix(Z, width) && i < |Z| && |labels| == |Z|
    ensures PointRowAt(Z, width, labels, active, i, l).status
         == if Implicating(RejHits(Z, width, active, i), l) != {} then Reject
            else if Implicating(WarnHits(Z, width, i), l) != {} then Warning else Pass
  {
    forall h | h in RejHits(Z, width, active, i) ensures WellFormed(Z, width, i, h) {
      RejHitsWellFormed(Z, width, active, i, h);
    }
    forall h | h in WarnHits(Z, width, i) ensures WellFormed(Z, width, i, h) {
      WarnHitsWellFormed(Z, width, i, h);
    }
    MessagesOfEmpty(Z, width, labels, i, Implicating(RejHits(Z, width, active, i), l));
    MessagesOfEmpty(Z, width, labels, i, Implicating(WarnHits(Z, width, i), l));
  }

  /** A set of well-formed hits is non-empty exactly when one of them implicates some level. */
  lemma SomeLevelImplicated(Z: Matrix, width: nat, i: nat, hs: set<Hit>)
    requires IsMatrix(Z, width) && i < |Z|
    requires forall h :: h in hs ==> WellFormed(Z, width, i, h)
    ensures hs != {} <==> exists l :: 0 <= l < width && Implicating(hs, l) != {}
  {
    if hs != {} {
      var h :| h in hs;
      assert h in Implicating(hs, h.levels[0]);
    }
  }

  /** A run is rejected exactly when one of its points is. */
  lemma RunRejectIffPointRejects(Z: Matrix, width: nat, labels: seq<string>, active: set<RuleCode>, i: nat)
    requires IsMatrix(Z, width) && i < |Z| && |labels| == |Z|
    ensures RunRowAt(Z, width, labels, active, i).status == Reject
        <==> exists l :: 0 <= l < width && PointRowAt(Z, width, labels, active, i, l).status == Reject
  {
    var rej := RejHits(Z, width, active, i);
    RunStatus(Z, width, labels, active, i);
    forall l | 0 <= l < width
      ensures PointRowAt(Z, width, labels, active, i, l).status == Reject <==> Implicating(rej, l) != {}
    {
      PointStatus(Z, width, labels, active, i, l);
    }
    forall h | h in rej ensures WellFormed(Z, width, i, h) {
      RejHitsWellFormed(Z, width, active, i, h);
    }
    SomeLevelImplicated(Z, width, i, rej);
  }

  /** A run passes exactly when every one of its points passes. */
  lemma RunPassIffPointsPass(Z: Matrix, width: nat, labels: seq<string>, active: set<RuleCode>, i: nat)
    requires IsMatrix(Z, width) && i < |Z| && |labels| == |Z|
    ensures RunRowAt(Z, width, labels, active, i).status == Pass
        <==> forall l :: 0 <= l < width ==> PointRowAt(Z, width, labels, active, i, l).status == Pass
  {
    var rej, warn := RejHits(Z, width, active, i), WarnHits(Z, width, i);
    RunStatus(Z, width, labels, active, i);
    forall l | 0 <= l < width
      ensures PointRowAt(Z, width, labels, active, i, l).status == Pass
          <==> Implicating(rej, l) == {} && Implicating(warn, l) == {}
    {
      PointStatus(Z, width, labels, active, i, l);
    }
    forall h | h in rej ensures WellFormed(Z, width, i, h) {
      RejHitsWellFormed(Z, width, active, i, h);
    }
    forall h | h in warn ensures WellFormed(Z, width, i, h) {
      WarnHitsWellFormed(Z, width, i, h);
    }
    SomeLevelImplicated(Z, width, i, rej);
    SomeLevelImplicated(Z, width, i, warn);
  }

  /** Whatever the sigma, a point 3 SD or more out is rejected, and so is its run. */
  lemma ThreeSDPointRejected(Z: Matrix, width: nat, labels: seq<string>, sigma: Option<real>, numLevels: int,
                             i: nat, l: nat)
    requires IsMatrix(Z, width) && i < |Z| && |labels| == |Z| && l < width
    requires Z[i][l].Some? && Abs(Z[i][l].value) >= 3.0
    ensures PointRowAt(Z, width, labels, Resolve(sigma, numLevels).1, i, l).status == Reject
    ensures RunRowAt(Z, width, labels, Resolve(sigma, numLevels).1, i).status == Reject
  {
    var active := Resolve(sigma, numLevels).1;
    var h := Hit(OneThreeS, [l]);
    ThreeSDAlwaysRejects(Z, width, sigma, numLevels, i, l);
    assert h in Implicating(RejHits(Z, width, active, i), l);
    RejHitsWellFormed(Z, width, active, i, h);
    assert Message(Z, width, labels, i, h) in PointRejects(Z, width, labels, active, i, l);
    RunRejectIffPointRejects(Z, width, labels, active, i);
  }

  // -----------------------------------------------------------------------
  // Short rule labels of a point

  /** The hits of point (i, l), rejections and warnings together. */
  function PointHits(Z: Matrix, width: nat, active: set<RuleCode>, i: nat, l: nat): (hs: set<Hit>)
    requires IsMatrix(Z, width) && i < |Z|
    ensures forall h :: h in hs <==> l in h.levels && (h in RejHits(Z, width, active, i) || h in WarnHits(Z, width, i))
  {
    Implicating(RejHits(Z, width, active, i), l) + Implicating(WarnHits(Z, width, i), l)
  }

  /** The display lists exactly the messages of both sets. */
  lemma DisplayListMembers(R: set<string>, W: set<string>)
    ensures forall m :: m in SortedOf(R) + SortedOf(W) <==> m in R + W
  {
    SortedOfMembers(R);
    SortedOfMembers(W);
  }

  /** The first words of a list are the first words of its members. */
  lemma FirstWordsMembers(ms: seq<string>)
    ensures forall w :: w in FirstWords(ms) <==> exists m :: m in ms && w == FirstToken(m)
  {
    var fs := FirstWords(ms);
    forall w | w in fs ensures exists m :: m in ms && w == FirstToken(m) {
      var k :| 0 <= k < |fs| && fs[k] == w;
      assert ms[k] in ms;
    }
    forall m | m in ms ensures FirstToken(m) in fs {
      var k :| 0 <= k < |ms| && ms[k] == m;
    }
  }

  /**
   * extract_rule_short of a display text: the first words of its messages in
   * display order, each once; these are the first words of the messages.
   */
  lemma DisplayRuleShort(R: set<string>, W: set<string>)
    requires forall m :: m in R + W ==> Trimmed(m) && ';' !in m
    ensures var ws := Distinct(FirstWords(SortedOf(R) + SortedOf(W)));
      RuleShortOf(Some(Display(R, W))) == Join(ws, ", ")
      && forall w :: w in ws <==> exists m :: m in R + W && w == FirstToken(m)
  {
    var ms := SortedOf(R) + SortedOf(W);
    DisplayListMembers(R, W);
    assert forall k :: 0 <= k < |ms| ==> ms[k] in R + W;
    RuleShortOfJoined(ms);
    FirstWordsMembers(ms);
  }

  /** Every message of point (i, l) is trimmed, ';'-free and starts with the short name of one of its hits. */
  lemma PointMessagesNamed(Z: Matrix, width: nat, labels: seq<string>, active: set<RuleCode>, i: nat, l: nat)
    requires IsMatrix(Z, width) && i < |Z| && |labels| == |Z| && NoSeparator(labels)
    ensures forall m :: m in PointRejects(Z, width, labels, active, i, l) + PointWarnings(Z, width, labels, i, l) ==>
      Trimmed(m) && ';' !in m && exists h :: h in PointHits(Z, width, active, i, l) && FirstToken(m) == Prefix(h.check)
  {
    var R, W := PointRejects(Z, width, labels, active, i, l), PointWarnings(Z, width, labels, i, l);
    var rh, wh := Implicating(RejHits(Z, width, active, i), l), Implicating(WarnHits(Z, width, i), l);
    forall m | m in R + W
      ensures Trimmed(m) && ';' !in m
      ensures exists h :: h in PointHits(Z, width, active, i, l) && FirstToken(m) == Prefix(h.check)
    {
      if m in R {
        MessagesOfShape(Z, width, labels, i, rh, m);
      } else {
        MessagesOfShape(Z, width, labels, i, wh, m);
      }
    }
  }

  /** Every hit of point (i, l) has a message there, which starts with the hit's short name. */
  lemma PointHitsNamed(Z: Matrix, width: nat, labels: seq<string>, active: set<RuleCode>, i: nat, l: nat)
    requires IsMatrix(Z, width) && i < |Z| && |labels| == |Z|
    ensures forall h :: h in PointHits(Z, width, active, i, l) ==>
      exists m :: m in PointRejects(Z, width, labels, active, i, l) + PointWarnings(Z, width, labels, i, l)
                  && Prefix(h.check) == FirstToken(m)
  {
    var R, W := PointRejects(Z, width, labels, active, i, l), PointWarnings(Z, width, labels, i, l);
    var rh := Implicating(RejHits(Z, width, active, i), l);
    forall h | h in PointHits(Z, width, active, i, l)
      ensures exists m :: m in R + W && Prefix(h.check) == FirstToken(m)
    {
      if h in rh {
        RejHitsWellFormed(Z, width, active, i, h);
      } else {
        WarnHitsWellFormed(Z, width, i, h);
      }
      MessageShape(Z, width, labels, i, h);
      assert Message(Z, width, labels, i, h) in R + W;
    }
  }

  /**
   * extract_rule_short of a point's rule text: the first words of its sorted
   * messages, each once, and these are exactly the short names of the rules
   * that hit the point (when no run label holds a ';').
   */
  lemma PointRuleShort(Z: Matrix, width: nat, labels: seq<string>, active: set<RuleCode>, i: nat, l: nat)
    requires IsMatrix(Z, width) && i < |Z| && |labels| == |Z| && NoSeparator(labels)
    ensures var R, W := PointRejects(Z, width, labels, active, i, l), PointWarnings(Z, width, labels, i, l);
      var ws := Distinct(FirstWords(SortedOf(R) + SortedOf(W)));
      RuleShortOf(Some(PointRowAt(Z, width, labels, active, i, l).ruleCodes)) == Join(ws, ", ")
      && forall w :: w in ws <==> exists h :: h in PointHits(Z, width, active, i, l) && w == Prefix(h.check)
  {
    var R, W := PointRejects(Z, width, labels, active, i, l), PointWarnings(Z, width, labels, i, l);
    PointMessagesNamed(Z, width, labels, active, i, l);
    PointHitsNamed(Z, width, labels, active, i, l);
    DisplayRuleShort(R, W);
  }
}
