# Westgard rule engine of the QC application

This project models the internal-quality-control engine of `qc_core.py` in
Dafny. The engine:

- resolves a method's sigma score into a sigma category and the set of active
  Westgard rejection rules (`get_sigma_category_and_rules`);
- computes z-scores (`compute_zscore`);
- scans a runs × control-levels matrix of z-scores with the Westgard
  multirule checks (1_2s, 1_3s, 2_2s, 2of3_2s, R_4s, 3_1s, 4_1s, 9x, 10x,
  each in its cross-run, within-run and block forms), collects the violations
  per run and per point (run, level), and reduces them to a status and a
  display text per run and per point (`evaluate_westgard`);
- pulls the short rule names back out of a point's rule text
  (`extract_rule_short`).

Modules (one per file):

| module | file | what it holds |
|---|---|---|
| `Wrappers` | wrappers.dfy | `Option` (None stands for NaN and every unusable input) |
| `SigmaRules` | sigma_rules.dfy | rule codes, sigma categories, the resolver |
| `ZScore` | zscore.dfy | `compute_zscore` |
| `Strings` | strings.dfy | Python's `strip`, `split`, `join`, `sorted` on strings and the `.2f` format |
| `Westgard` | westgard.dfy | the checks as pure functions: for every run, the set of hits each check attaches to it |
| `WestgardFacts` | westgard_props.dfy | properties of the checks and of the rule gating |
| `Engine` | engine.dfy | the scanning half of `evaluate_westgard` as a class whose four containers are updated in place |
| `Messages` | messages.dfy | the text of each violation message |
| `Report` | report.dfy | the run and point summaries and `evaluate_westgard` as a whole |
| `ReportFacts` | report_props.dfy | properties of the statuses, the display text and the rule names |
| `RuleShort` | rule_short.dfy | `extract_rule_short` |

How the model represents the engine:

- **Hits.** A violation is a `Hit(check, levels)`: the check that fired and
  the control levels (0-based columns) it implicates. A hit belongs to the
  run whose set holds it, which is always the last run of the check's window.
  The message text is derived from the hit (`Messages.Message`) with the
  source's wording, control numbering from 1 and an en dash between run
  labels.
- **Level counts.** `width` is the column count of the z-score matrix. It
  drives the level-count guards (`n_levels == 2`, `== 3`, `>= 3`).
  `numLevels` is the configured level count and only chooses the sigma rule
  set. The source keeps these two apart too.
- **`Engine.Evaluation`.** The class holds `warnByRun`, `rejByRun`,
  `warnPoint` and `rejPoint`. Its methods add hits exactly as `add_warn` and
  `add_rej` do. Each scan method is proved against the pure `Westgard`
  definition of its check. `Valid()` keeps each point container equal to the
  hits of its run that name its level.
- **`Report.EvaluateWestgard`.** It is proved to produce exactly the run rows
  and point rows that the pure definitions give. The facts about those rows
  are proved in `ReportFacts`.

Two places where the code does more than a plain reading suggests:

- **Trend rules reject results within 2 SD.** One could expect a run whose
  every result lies within 2 SD to pass. The code does not behave that way:
  the trend rules (3_1s, 4_1s, 9x, 10x) still reject such runs. The model
  follows the code: `WestgardFacts.TrendRejectsWithinTwoSD` gives three runs
  at +1.5 SD that are rejected by 3_1s. `WestgardFacts.WithinTwoSDOnlyTrends`
  proves that only the trend rules can reject such a run.
- **Redundant guards.** Several guards in the source can never change the
  outcome. Lemmas show each of them redundant rather than leaving them out:
  - the sigma `== 0` test (`SigmaRules.ZeroSigmaIsBelowFour`);
  - the all-missing test of cross-run 2of3_2s (`WestgardFacts.TwoOfThreeGuardRedundant`);
  - the `n_levels >= 3` test of within-run 3_1s (`WestgardFacts.ThreeOneSWithinRunNeedsThreeLevels`);
  - the blank-text test of `extract_rule_short` (`RuleShort.BlankGuardRedundant`).

## Model

| member | source | states |
|---|---|---|
| SigmaRules.CategoryOf | qc_core.py:998-1008 | A missing or NaN sigma gives "<4"; otherwise sigma ≥ 6 gives "6", [5, 6) gives "5", [4, 5) gives "4", and anything below 4 gives "<4" |
| SigmaRules.RulesFor | qc_core.py:1010-1029 | Every rule set contains 1_3s and never contains the warning rule 1_2s |
| SigmaRules.Resolve | qc_core.py:997-1031 | The resolver returns a category and that category's rule set for the level count; 1_3s is always active; a missing sigma gives "<4" |
| SigmaRules.RulesShrinkWithCategory | qc_core.py:1010-1029 | For a fixed level count the rule sets are strictly nested: 6 ⊂ 5 ⊂ 4 ⊂ <4 |
| SigmaRules.RulesMonotoneInSigma | qc_core.py:998-1029 | A larger sigma never activates more rules, and a missing sigma activates the most |
| SigmaRules.RuleFamilies | qc_core.py:1012-1029 | With 2 levels there is no 2of3_2s or 3_1s; otherwise there is no 2_2s or 4_1s; the set is {1_3s} exactly in category "6" |
| SigmaRules.ZeroSigmaIsBelowFour | qc_core.py:998-999 | A zero sigma lands in "<4", as a missing one does, so the explicit zero test changes nothing |
| ZScore.ComputeZScore | qc_core.py:885-892 | The z-score is missing exactly when the value, the mean or the SD is unusable or the SD is zero; otherwise z·sd + mean is the value |
| ZScore.ZScoreMeasuresDeviation | qc_core.py:885-892 | With a positive SD, z has the sign of value − mean, and \|z\| ≥ k exactly when the value is at least k SDs from the mean |
| Westgard.LevelHitsStep | qc_core.py:1060-1079 | Scanning one more level adds that level's hit exactly when the check fires there |
| Westgard.FiresAtNeedsWindow | qc_core.py:1104-1264 | A cross-run check fires only once its whole window of runs fits above the current run |
| Westgard.LevelsWhere | qc_core.py:1141-1145 | The levels of a run that qualify, each once, in increasing order, and every qualifying level among them |
| Westgard.PresentValues | qc_core.py:1154 | The z-scores of a run with the NaN cells dropped |
| Westgard.GatedPrefixMembers | qc_core.py:1071-1272 | A hit is a rejection of the run exactly when some rejection check passes its guard and produces that hit |
| Westgard.Implicating | qc_core.py:1048-1058 | A point collects exactly the hits of its run that name its level |
| WestgardFacts.CheckHitsWellFormed | qc_core.py:1060-1272 | Every hit names at least one existing level, its window fits above the run, and a single-level check names one level |
| WestgardFacts.RejHitsWellFormed | qc_core.py:1071-1272 | Every rejection hit is well formed, comes from a check other than 1_2s, and that check's rule is active and its level-count guard holds |
| WestgardFacts.WarnHitsWellFormed | qc_core.py:1060-1068 | Every warning is a well-formed 1_2s hit |
| WestgardFacts.GatedPrefixMonotone | qc_core.py:1071-1272 | Activating more rules never removes a rejection |
| WestgardFacts.RejHitsShrinkWithSigma | qc_core.py:997-1272 | A larger sigma never rejects a run on more grounds |
| WestgardFacts.SixSigmaOnlyOneThreeS | qc_core.py:1071-1272 | In category "6" every rejection hit is a 1_3s hit |
| WestgardFacts.ThreeSDAlwaysRejects | qc_core.py:1070-1079 | A present z-score at least 3 SD out is a 1_3s rejection of its level, whatever the sigma |
| WestgardFacts.OneThreeSNeedsThreeSD | qc_core.py:1070-1079 | A 1_3s rejection of a level means its z-score is present and at least 3 SD out |
| WestgardFacts.BandWarns | qc_core.py:1060-1079 | A present z-score in [2, 3) SD is a 1_2s warning and never a 1_3s rejection |
| WestgardFacts.OneTwoSIffBand | qc_core.py:1060-1068 | 1_2s warns a level exactly when its z-score is present and in [2, 3) SD, whatever rules are active |
| WestgardFacts.OneThreeSIffThreeSD | qc_core.py:1070-1079 | With 1_3s active, 1_3s rejects a level exactly when its z-score is present and at least 3 SD out |
| WestgardFacts.WarnAndRejectExclusive | qc_core.py:1060-1079 | No level of a run is both warned by 1_2s and rejected by 1_3s |
| WestgardFacts.MissingCellSilencesWindow | qc_core.py:1104-1261 | A missing cell anywhere in the window stops 2_2s, 3_1s, 4_1s, 9x and 10x across runs |
| WestgardFacts.ZeroCellBreaksTrend | qc_core.py:1169-1261 | A z-score of exactly 0 is on neither side and stops every 3_1s, 4_1s, 9x or 10x window through it |
| WestgardFacts.ZeroCellBreaksBlock | qc_core.py:1211-1272 | A z-score of exactly 0 anywhere in a 4_1s, 9x or 10x block stops the block |
| WestgardFacts.MissingCellSilencesBlock | qc_core.py:1211-1272 | A missing (NaN) cell anywhere in a 4_1s (2 runs × 2 levels), 9x (3 × 3) or 10x (5 × 2) block stops the block |
| WestgardFacts.TwoOfThreeGuardRedundant | qc_core.py:1118-1135 | Cross-run 2of3_2s fires exactly when one side has two or more votes (present and at least 2 SD out); the all-missing test changes nothing |
| WestgardFacts.ThreeOfThreeFires | qc_core.py:1118-1135 | Three votes on one side also fire cross-run 2of3_2s: there is no upper bound of 3 SD and the count is at least two |
| WestgardFacts.RangeFourSCharacterised | qc_core.py:1151-1167 | R_4s fires for a run exactly when it has a present z-score ≥ +2 and another ≤ −2 |
| WestgardFacts.ThreeOneSWithinRunNeedsThreeLevels | qc_core.py:1183-1195 | With fewer than three levels the within-run 3_1s check finds nothing |
| WestgardFacts.NoLevelsBeyondTwo | qc_core.py:1137-1149 | In a run whose results are all within 2 SD, no level is at least 2 SD out |
| WestgardFacts.QuietLevelChecks | qc_core.py:1060-1135 | With every result within 2 SD, 1_2s, 1_3s, 2_2s and 2of3_2s across runs find nothing |
| WestgardFacts.QuietBand | qc_core.py:1081-1102 | With every result within 2 SD, within-run 2_2s finds nothing |
| WestgardFacts.QuietTwoSD | qc_core.py:1137-1149 | With every result within 2 SD, within-run 2of3_2s finds nothing |
| WestgardFacts.QuietRange | qc_core.py:1151-1167 | With every result within 2 SD, R_4s finds nothing |
| WestgardFacts.QuietCheckSilent | qc_core.py:1060-1167 | With every result within 2 SD, every check other than the trend checks finds nothing |
| WestgardFacts.WithinTwoSDOnlyTrends | qc_core.py:1060-1272 | With every result within 2 SD there is no warning, and every rejection comes from 3_1s, 4_1s, 9x or 10x |
| WestgardFacts.TrendRejectsWithinTwoSD | qc_core.py:1169-1181 | Three runs of one level, all at +1.5 SD, are within 2 SD yet reject the third run by 3_1s when the sigma is missing |
| Engine.WithSignSnoc | qc_core.py:1095 | Adding a level and its sign extends the list of levels of that sign |
| Engine.BandStep | qc_core.py:1087-1094 | One step of the within-run 2_2s level loop keeps the per-sign lists equal to the band levels scanned so far |
| Engine.BandIndices | qc_core.py:1085-1095 | The per-sign level lists are exactly the levels in [2, 3) SD of each side, with zero counted as positive |
| Engine.ExtremeIndices | qc_core.py:1160-1165 | The R_4s levels are the present levels whose z-score equals the run's maximum or minimum |
| Engine.RangeLevels | qc_core.py:1151-1167 | The R_4s loop for one run yields that run's R_4s hit, or nothing |
| Engine.Evaluation.constructor | qc_core.py:1043-1046 | The containers start empty, one per run and one per point |
| Engine.Evaluation.AddWarn | qc_core.py:1048-1052 | Adds the hit to the run's warnings and to the warnings of each level it names, and changes nothing else |
| Engine.Evaluation.AddRej | qc_core.py:1054-1058 | Adds the hit to the run's rejections and to the rejections of each level it names, and changes nothing else |
| Engine.Evaluation.ScanOneTwoS | qc_core.py:1060-1068 | Every run's warnings gain exactly its 1_2s hits |
| Engine.Evaluation.ScanOneThreeS | qc_core.py:1070-1079 | Every run's rejections gain exactly its 1_3s hits |
| Engine.Evaluation.ScanLevel | qc_core.py:1104-1116 | One level of a cross-run check: each run gains that level's hit when the window ending there fires |
| Engine.Evaluation.ScanAcrossRuns | qc_core.py:1104-1261 | A cross-run check adds exactly its hits to every run |
| Engine.Evaluation.ScanTwoTwoSRun | qc_core.py:1084-1102 | Run i gains exactly its within-run 2_2s hits; no other run changes |
| Engine.Evaluation.ScanTwoTwoSWithinRun | qc_core.py:1081-1102 | Every run gains exactly its within-run 2_2s hits |
| Engine.Evaluation.ScanTwoOfThreeRun | qc_core.py:1138-1149 | Run i gains the hit of the first side with two levels at least 2 SD out; no other run changes |
| Engine.Evaluation.ScanTwoOfThreeWithinRun | qc_core.py:1137-1149 | Every run gains exactly its within-run 2of3_2s hits |
| Engine.Evaluation.ScanRangeRun | qc_core.py:1153-1167 | Run i gains exactly its R_4s hit; no other run changes |
| Engine.Evaluation.ScanRangeFourS | qc_core.py:1151-1167 | Every run gains exactly its R_4s hits |
| Engine.Evaluation.ScanThreeOneSWithinRun | qc_core.py:1183-1195 | Every fully present run gains the hit of the first side with three levels at least 1 SD out |
| Engine.Evaluation.ScanBlocks | qc_core.py:1211-1272 | Every run gains exactly its 4_1s, 9x or 10x block hit |
| Engine.Evaluation.ScanCheck | qc_core.py:1070-1272 | A rejection check adds exactly its hits to every run |
| Engine.Evaluation.Scan | qc_core.py:1060-1272 | Warnings gain exactly the 1_2s hits; rejections gain exactly the hits of every check whose guard holds, in the source's order |
| Engine.ScanMatrix | qc_core.py:1043-1272 | The run containers are the warning and rejection hits of each run, and each point container holds exactly the hits of its run that name its level |
| Messages.Prefix | qc_core.py:1060-1272 | Each check's short name is non-empty, has no whitespace and no ';' |
| Messages.Message | qc_core.py:1060-1272 | A message is the short name, a space and a detail ending in ')', with no ';' when no run label has one |
| Messages.DetailNoSeparator | qc_core.py:1060-1272 | With no ';' in any run label, a message detail holds no ';' |
| Report.Summary | qc_core.py:1277-1290 | Gives Reject when there are rejections, else Warning when there are warnings, else Pass; the text is the sorted rejections then the sorted warnings, joined by "; " |
| Report.RowStartProduct | qc_core.py:1297-1317 | The rows of run i start after i·width point rows |
| Report.RunSummaries | qc_core.py:1274-1294 | One row per run with its label, status and display text |
| Report.LevelRows | qc_core.py:1298-1316 | One row per level of a run, "Ctrl l+1", with its status and display text |
| Report.PointSummaries | qc_core.py:1296-1317 | The point rows, run-major, hold the status and text of every (run, level) |
| Report.Summarise | qc_core.py:1274-1317 | The run rows and point rows are exactly the summaries of the hit sets scanned from the matrix |
| Report.EvaluateWestgard | qc_core.py:1034-1319 | Returns the resolved category and rules, one row per run and run × level point rows, each the summary of exactly the hits its checks attach to it |
| ReportFacts.MessageShape | qc_core.py:1060-1272 | A message starts and ends with a non-space character, and its first word is the check's short name |
| ReportFacts.MessagesOfShape | qc_core.py:1048-1058 | Every collected message is trimmed, comes from one of the collected hits, and has no ';' when no label has one |
| ReportFacts.MessageReachesPoint | qc_core.py:1048-1058 | Every message of a run also reaches the point of some level |
| ReportFacts.PointMessagesWithinRun | qc_core.py:1048-1058 | A point's rejection and warning messages are subsets of its run's |
| ReportFacts.JoinEmpty | qc_core.py:1290 | A join of non-empty messages is empty exactly when there are none |
| ReportFacts.DisplayEmpty | qc_core.py:1285-1290 | The display text is empty exactly when there is no message |
| ReportFacts.RunPassIffNoViolations | qc_core.py:1279-1290 | A run passes exactly when its violation text is empty |
| ReportFacts.PointPassIffNoRules | qc_core.py:1302-1314 | A point passes exactly when its rule text is empty |
| ReportFacts.MessagesOfEmpty | qc_core.py:1048-1058 | Well-formed hits give a message exactly when there is a hit |
| ReportFacts.RunStatus | qc_core.py:1279-1284 | A run is rejected exactly when it has a rejection hit, warned exactly when it has a warning but no rejection, and passes otherwise |
| ReportFacts.PointStatus | qc_core.py:1302-1307 | The same for a point, counting only the hits that name its level |
| ReportFacts.SomeLevelImplicated | qc_core.py:1048-1058 | A set of well-formed hits is non-empty exactly when some level has a hit |
| ReportFacts.RunRejectIffPointRejects | qc_core.py:1279-1307 | A run is rejected exactly when one of its points is |
| ReportFacts.RunPassIffPointsPass | qc_core.py:1279-1307 | A run passes exactly when all its points pass |
| ReportFacts.ThreeSDPointRejected | qc_core.py:1070-1079 | Whatever the sigma, a point at least 3 SD out is rejected, and so is its run |
| ReportFacts.PointHits | qc_core.py:1048-1058 | The hits of a point are the run's rejections and warnings that name its level |
| ReportFacts.DisplayListMembers | qc_core.py:1277-1285 | The display lists exactly the messages of both sets |
| ReportFacts.DisplayRuleShort | qc_core.py:895-906 | extract_rule_short of a display text gives the distinct first words of its messages |
| ReportFacts.PointMessagesNamed | qc_core.py:1300-1314 | Every message of a point is trimmed, has no ';', and starts with the short name of one of the point's hits |
| ReportFacts.PointHitsNamed | qc_core.py:1300-1314 | Every hit of a point has a message at that point that starts with the hit's short name |
| ReportFacts.PointRuleShort | pages/3_Bieu_do_Levey_Jennings.py:63 | The short rule text of a point lists, each once, exactly the short names of the checks that hit it |
| Strings.LStrip | qc_core.py:900 | Drops exactly the leading whitespace |
| Strings.RStrip | qc_core.py:900 | Drops exactly the trailing whitespace |
| Strings.StripBlank | qc_core.py:898-899 | A text strips to nothing exactly when it is all whitespace |
| Strings.StripTrimmed | qc_core.py:900 | A text that starts and ends with a non-space character is its own strip |
| Strings.Split | qc_core.py:899 | The pieces of a split hold no separator and only characters of the text |
| Strings.JoinSplit | qc_core.py:899 | Joining the pieces of a split with the separator gives the text back |
| Strings.SplitJoined | qc_core.py:899 | Splitting a "; "-join of ';'-free messages on ';' gives the first message and the others each with a space in front |
| Strings.FirstToken | qc_core.py:903 | The first word of a text is its longest whitespace-free prefix |
| Strings.FirstTokenOf | qc_core.py:903 | The first word of a word followed by a space is that word |
| Strings.LexIrreflexive | qc_core.py:1277-1278 | No string comes before itself in the order sorted() uses |
| Strings.LexTransitive | qc_core.py:1277-1278 | The order sorted() uses is transitive |
| Strings.LexTotal | qc_core.py:1277-1278 | Of two distinct strings exactly one comes first |
| Strings.LeastExists | qc_core.py:1277-1278 | A non-empty set of strings has a least member |
| Strings.SortedOfSorted | qc_core.py:1277-1278 | sorted() of a set lists every member once, in strictly increasing order |
| Strings.PickLeast | qc_core.py:1277-1278 | Returns the least member of a non-empty set |
| Strings.Sort | qc_core.py:1277-1278 | Returns exactly sorted() of the set |
| Strings.NatToString | qc_core.py:1067 | The decimal text of a natural number is non-empty and all digits |
| Strings.NatToStringValue | qc_core.py:1067 | The decimal text of n denotes n and has no leading zero unless it is "0" |
| Strings.NatToStringInjective | qc_core.py:1067 | Different numbers, and so different control numbers, have different decimal texts |
| Strings.RoundHalfEven | qc_core.py:1067 | The nearest integer, with ties going to the even one |
| Strings.Fixed2 | qc_core.py:1067 | The two-decimal text of a z-score is non-empty and has no whitespace and no ';' |
| RuleShort.Tokens | qc_core.py:900-903 | At most one word per part, each non-empty and free of whitespace |
| RuleShort.TokensAreFirstWords | qc_core.py:899-903 | The words are the first words of the stripped non-blank parts, in order, whatever mix of blank and non-blank parts the text has |
| RuleShort.Distinct | qc_core.py:901-905 | The distinct list has no repeats and exactly the members of its input |
| RuleShort.DistinctKeepsFirstOrder | qc_core.py:904-906 | The codes are listed in order of first appearance: an earlier code first appears earlier in the input |
| RuleShort.DistinctTokensStep | qc_core.py:900-905 | One more part adds its first word unless the part is blank or the word is already listed |
| RuleShort.ExtractRuleShort | qc_core.py:895-906 | The loop returns the distinct first words of the ';'-separated parts, in first-occurrence order, joined by ", ", and "" for a non-string |
| RuleShort.TokensOfBlank | qc_core.py:900-902 | Parts made only of whitespace contribute no word |
| RuleShort.BlankGuardRedundant | qc_core.py:898-899 | For a blank text the general path also returns "", so the blank test changes nothing |
| RuleShort.TokensOfTrimmed | qc_core.py:900-903 | Parts that strip to non-blank messages give the first word of each message |
| RuleShort.JoinedNotBlank | qc_core.py:898-899 | A join of messages, the first of them trimmed, is not blank |
| RuleShort.JoinedPartsStrip | qc_core.py:899-900 | The parts of a "; "-join of trimmed, ';'-free messages strip back to the messages |
| RuleShort.RuleShortOfJoined | qc_core.py:895-906 | On a "; "-join of such messages, extract_rule_short gives the distinct first words of the messages |
| RuleShort.DistinctOfDistinct | qc_core.py:901-905 | A list without repeats is its own distinct list |

## Left out

- The Streamlit pages, the CSS and the session state are not part of this model, except the one call of `extract_rule_short` on a point's rule text that `ReportFacts.PointRuleShort` states. They are presentation.
- Supabase persistence and login are not part of this model. They are network I/O.
- The Levey-Jennings chart and the Word and PNG exports are not part of this model. They are rendering and file I/O.
- `compute_stats` and `utils/statistics.py` are not part of this model. They are floating-point statistics; the mean and SD arrive here as inputs.
- The pandas code that picks and orders the `z_Ctrl` columns (qc_core.py:1035-1039) is not modelled. The matrix is the input, and `width` is its column count.
- z-scores, means, SDs and sigma are exact reals. Binary floating point, its rounding in the division of `compute_zscore` and the formatting of non-finite values are not modelled.
- `float()` parsing is folded into `Option`: a value the source cannot convert, an absent value and NaN are all `None`.
- Strings.Fixed2: rounds the exact real to two decimals half-to-even. Python formats the binary value nearest to it, which can differ on ties. Only the shape of the text is proved: non-empty, no whitespace, no ';'.
- Run labels are strings supplied by the caller. Properties that split a rule text on ';' require that no run label contain ';'.
- The hits are kept as structured values, and messages are derived from them. No lemma proves that different hits give different messages. The source's sets merge equal messages, and so do the model's, since both are sets of strings.
- Strings.Sort: `sorted()` is modelled as repeated selection of the least remaining string on a set. Python's Timsort on a list is not modelled; the result is the same for a set of distinct strings.
- The DataFrame objects returned by `evaluate_westgard` are sequences of row records with the same fields.
