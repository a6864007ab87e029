/**
 * The sigma resolver: maps a sigma score and a control-level count to a
 * sigma category and to the set of Westgard rule codes used for rejection
 * (qc_core.py, get_sigma_category_and_rules).
 */
module SigmaRules {
  import opened Wrappers

  /** The codes of the Westgard rules. `Rule12s` is the warning rule; it is never a rejection rule. */
  datatype RuleCode =
    | Rule12s | Rule13s | Rule22s | Rule2of3s | RuleR4s | Rule31s | Rule41s | Rule9x | Rule10x

  /** The name under which the active rule set lists a code. */
  function RuleName(c: RuleCode): string
  {
    match c
    case Rule12s => "1_2s"
    case Rule13s => "1_3s"
    case Rule22s => "2_2s"
    case Rule2of3s => "2of3_2s"
    case RuleR4s => "R_4s"
    case Rule31s => "3_1s"
    case Rule41s => "4_1s"
    case Rule9x => "9x"
    case Rule10x => "10x"
  }

  /** The sigma categories "6", "5", "4" and "<4". */
  datatype Category = Six | Five | Four | BelowFour

  function CategoryLabel(cat: Category): string
  {
    match cat
    case Six => "6"
    case Five => "5"
    case Four => "4"
    case BelowFour => "<4"
  }

  /**
   * The category of a sigma score; `None` is a sigma that is absent or NaN.
   * A sigma of exactly zero is "unknown" as well.
   */
  function CategoryOf(sigma: Option<real>): (cat: Category)
    ensures sigma.None? ==> cat == BelowFour
    ensures sigma.Some? && sigma.value >= 6.0 ==> cat == Six
    ensures sigma.Some? && 5.0 <= sigma.value < 6.0 ==> cat == Five
    ensures sigma.Some? && 4.0 <= sigma.value < 5.0 ==> cat == Four
    ensures sigma.Some? && sigma.value < 4.0 ==> cat == BelowFour
  {
    if sigma.None? || sigma.value == 0.0 then BelowFour
    else if sigma.value >= 6.0 then Six
    else if sigma.value >= 5.0 then Five
    else if sigma.value >= 4.0 then Four
    else BelowFour
  }

  /**
   * The rejection rules of a category. A level count of exactly 2 selects the
   * two-level rule family; every other count selects the three-level family.
   */
  function RulesFor(cat: Category, numLevels: int): (rules: set<RuleCode>)
    ensures Rule13s in rules && Rule12s !in rules
  {
    if numLevels == 2 then
      match cat
      case Six => {Rule13s}
      case Five => {Rule13s, RuleR4s, Rule22s}
      case Four => {Rule13s, RuleR4s, Rule22s, Rule41s}
      case BelowFour => {Rule13s, RuleR4s, Rule22s, Rule41s, Rule10x}
    else
      match cat
      case Six => {Rule13s}
      case Five => {Rule13s, RuleR4s, Rule2of3s}
      case Four => {Rule13s, RuleR4s, Rule2of3s, Rule31s}
      case BelowFour => {Rule13s, RuleR4s, Rule2of3s, Rule31s, Rule9x}
  }

  /** The resolver as the source exposes it: the category and its rule set. */
  function Resolve(sigma: Option<real>, numLevels: int): (r: (Category, set<RuleCode>))
    ensures Rule13s in r.1 && Rule12s !in r.1
    ensures r.1 == RulesFor(r.0, numLevels)
    ensures sigma.None? ==> r.0 == BelowFour
  {
    var cat := CategoryOf(sigma);
    (cat, RulesFor(cat, numLevels))
  }

  /** The order of the categories by how permissive the sigma is: "<4" < "4" < "5" < "6". */
  function Rank(cat: Category): nat
  {
    match cat
    case BelowFour => 0
    case Four => 1
    case Five => 2
    case Six => 3
  }

  /** A higher category has a strictly smaller rule set, for either level count. */
  lemma RulesShrinkWithCategory(c1: Category, c2: Category, numLevels: int)
    requires Rank(c1) < Rank(c2)
    ensures RulesFor(c2, numLevels) < RulesFor(c1, numLevels)
  {
    var lo, hi := RulesFor(c1, numLevels), RulesFor(c2, numLevels);
    // Each step from a category to the next one removes a rule.
    var dropped :=
      if numLevels == 2 then
        (if c1 == BelowFour then Rule10x else if c1 == Four then Rule41s else RuleR4s)
      else
        (if c1 == BelowFour then Rule9x else if c1 == Four then Rule31s else RuleR4s);
    assert dropped in lo && dropped !in hi;
  }

  /** A larger sigma never activates more rules; absent or NaN sigma activates the most. */
  lemma RulesMonotoneInSigma(s1: real, s2: real, numLevels: int)
    requires s1 <= s2
    ensures RulesFor(CategoryOf(Some(s2)), numLevels) <= RulesFor(CategoryOf(Some(s1)), numLevels)
    ensures RulesFor(CategoryOf(Some(s1)), numLevels) <= RulesFor(CategoryOf(None), numLevels)
  {
    var c1, c2 := CategoryOf(Some(s1)), CategoryOf(Some(s2));
    assert Rank(c1) <= Rank(c2);
    if Rank(c1) < Rank(c2) {
      RulesShrinkWithCategory(c1, c2, numLevels);
    }
    if c1 != BelowFour {
      RulesShrinkWithCategory(BelowFour, c1, numLevels);
    }
  }

  /** Each level count has its own family: the two families share only 1_3s and R_4s. */
  lemma RuleFamilies(cat: Category, numLevels: int)
    ensures numLevels == 2 ==> Rule2of3s !in RulesFor(cat, numLevels) && Rule31s !in RulesFor(cat, numLevels)
                               && Rule9x !in RulesFor(cat, numLevels)
    ensures numLevels != 2 ==> Rule22s !in RulesFor(cat, numLevels) && Rule41s !in RulesFor(cat, numLevels)
                               && Rule10x !in RulesFor(cat, numLevels)
    ensures cat == Six <==> RulesFor(cat, numLevels) == {Rule13s}
  {
  }

  /** The explicit test for a zero sigma changes nothing: zero falls below every threshold. */
  lemma ZeroSigmaIsBelowFour()
    ensures CategoryOf(Some(0.0)) == BelowFour == CategoryOf(None)
  {
  }
}
