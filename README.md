# Merch-Mate costing core in Dafny

This project models the computing core of Merch-Mate, a garment-merchandising
app. Merchandisers use it to estimate fabric consumption, cost a style to a
FOB price, judge a buyer's target FOB and keep a local history. The model
covers:

- **fabric consumption** (`FabricConsumption`): knit, woven and denim
  consumption, the dispatcher by garment tag, FOB impact, input validation and
  the recommended benchmark values;
- **margin analysis** (`MarginAnalyzer`): total enabled cost, margin, price gap,
  per-line grading against cost bands, ranking, cost driver, flags,
  order-size classification, the feasibility score and the status labels;
- **version checks** (`VersionConfig`, `UpdateChecker`): segment-wise version
  comparison, the daily check interval, download-asset choice, the list of
  dismissed versions and the newer-only decision;
- **export helpers** (`Exporters`): `toNumber`, the FOB export record, file-name
  sanitising and the garment-type label;
- **the screens' own logic**:
  - `NumericEntry`: the numeric-entry filter;
  - `BuyerAnalyzerInput`: the buyer analyzer's live total, toggles and analyse
    guard;
  - `InputScreen`: the cost-sheet form's field lists, conversion and
    per-dozen/per-piece round trip;
  - `FabricAnalyzerResult`: the history upsert;
  - `HistoryScreen`: selection and deletion.

JavaScript numbers are modelled as Dafny `real`s. A result that would be
`NaN` or `undefined` becomes `None` of an `Option`, and `x || d` becomes
`OrDefault`.

Rounding:
- `Math.round(x * 10^k) / 10^k` is `Floor(x * 10^k + 1/2) / 10^k`.
- `Number(x.toFixed(2))` is modelled the same way.

Parsing (module `JsNumber`):
- `parseFloat` reads an optional sign, digits, an optional point and digits;
  no digit at all gives `None`.
- `parseInt` reads the same way but stops before the fraction.

A stable `Array.prototype.sort` is modelled as an insertion sort. It is proved
to order by percentage, descending, with ties in key order, and to be a
permutation.

Where the app's documentation and its code disagree, the model follows the code:
- The documented worked feasibility example scores 48. The code maps 48 to
  Red / Reject, not Amber (`MarginAnalyzer.WorkedExample`).
- The code's "Bulk" order category starts at 10000 pieces, not 5000.
- Trims are graded on the fabric cost bands. The lookup is
  ``COST_THRESHOLDS[`${key}Percent`] || COST_THRESHOLDS.fabricPercent``, and the
  key `trims` asks for `trimsPercent`, while the table only has `trimPercent`.
- The FOB-impact shares are not guarded against a zero total. The model
  returns `None` there.

## Model

| member | source | states |
|---|---|---|
| JsNumber.RoundTo2Error | frontend/src/utils/fabricConsumptionCalculator.js:541-543 | rounding to 2 places moves a value by more than -0.005 and at most +0.005 |
| JsNumber.RoundTo4Error | frontend/src/utils/fabricConsumptionCalculator.js:545-547 | rounding to 4 places moves a value by more than -0.00005 and at most +0.00005 |
| JsNumber.RoundTo2 | frontend/src/utils/fabricConsumptionCalculator.js:541-543 | no contract of its own; see JsNumber.RoundTo2Error and JsNumber.RoundTo2WholeCents |
| JsNumber.RoundTo2WholeCents | frontend/src/utils/fabricConsumptionCalculator.js:541-543 | the rounded value is a whole number of cents |
| JsNumber.ParseFloat | frontend/src/screens/BuyerAnalyzerInputScreen.js:161-176 | no contract of its own; see JsNumber.MagnitudeOfParsed, JsNumber.ParseFloatSign, JsNumber.ParseIntThenParseFloat and JsNumber.NumberOfString |
| JsNumber.MagnitudeOfParsed | frontend/src/screens/BuyerAnalyzerInputScreen.js:161-176 | a parsed value lies at least as far from 0 as its whole digits' value, on the side of its sign, so the fraction digits only add to its size |
| JsNumber.ParseFloatSign | frontend/src/screens/BuyerAnalyzerInputScreen.js:161-176 | a value read without a leading minus sign is never negative, and one read with it is never positive |
| JsNumber.ParseInt | frontend/src/screens/BuyerAnalyzerInputScreen.js:163 | a number is read only when a digit follows the optional sign, and its sign follows the text's sign; see JsNumber.ParseIntNatToString for the round trip |
| JsNumber.ParseIntThenParseFloat | frontend/src/screens/BuyerAnalyzerInputScreen.js:161-163 | text that `parseInt` reads as a number, `parseFloat` reads as one too, negative whenever the integer is |
| JsNumber.NumberOfString | frontend/src/utils/versionConfig.js:33 | a non-empty text that `Number` reads as a number has the value `parseFloat` reads from it |
| JsNumber.ParseIntNatToString | frontend/src/utils/versionConfig.js:55 | parsing the decimal text of a timestamp gives back that timestamp |
| NumericEntry.PatternCharacterisation | frontend/src/screens/BuyerAnalyzerInputScreen.js:122-126 | an entry is accepted exactly when it is an optional '-', then digits with at most one '.', and nothing else |
| NumericEntry.AcceptsEntryIsPattern | frontend/src/screens/InputScreen.js:88 | the explicit "", "-" and "." cases accept nothing the regular expression would refuse |
| NumericEntry.PrefixClosed | frontend/src/screens/InputScreen.js:86-91 | every prefix of an accepted entry is accepted, so any accepted text can be typed key by key |
| NumericEntry.AcceptedParsesUnlessDigitless | frontend/src/screens/InputScreen.js:120-130 | an accepted entry parses to a number unless it has no digit at all |
| FabricConsumption.CalculateFabricConsumption | frontend/src/utils/fabricConsumptionCalculator.js:415-426 | it succeeds exactly for the knit, woven and denim tags and otherwise reports "Unknown garment type: " with the tag; the result echoes the tag, is in kg for knit and yards otherwise, prices with the family's price, and reports the actual consumption rounded to 4 places |
| FabricConsumption.CalculateKnitConsumption | frontend/src/utils/fabricConsumptionCalculator.js:53-171 | the result is tagged "knit" in kg with knit details, and echoes the price per kg and the order quantity; see FabricConsumption.ScalingIdentities for its figures |
| FabricConsumption.CalculateWovenConsumption | frontend/src/utils/fabricConsumptionCalculator.js:173-292 | the result is tagged "woven" in yards with woven details, and echoes the price per yard and the order quantity; see FabricConsumption.ScalingIdentities |
| FabricConsumption.CalculateDenimConsumption | frontend/src/utils/fabricConsumptionCalculator.js:294-413 | the result is tagged "denim" in yards with denim details, and echoes the price per yard and the order quantity; see FabricConsumption.DenimIsWovenWithRepeat |
| FabricConsumption.PatternsAcross | frontend/src/utils/fabricConsumptionCalculator.js:196-197 | at least one pattern is laid across the width |
| FabricConsumption.ValidateInputs | frontend/src/utils/fabricConsumptionCalculator.js:485-538 | the errors are the failed checks' messages in the source's order, and the inputs are valid exactly when there are none |
| FabricConsumption.NoErrorsIffValid | frontend/src/utils/fabricConsumptionCalculator.js:485-538 | the error list is empty exactly when every range rule that applies to the garment type holds |
| FabricConsumption.ErrorReportedIffCheckFails | frontend/src/utils/fabricConsumptionCalculator.js:489-532 | each rule's message appears in the errors exactly when that rule applies and fails |
| FabricConsumption.ValidIsDefined | frontend/src/utils/fabricConsumptionCalculator.js:72-79 | inputs that pass validation make every division of the calculation defined |
| FabricConsumption.ShrunkPositive | frontend/src/utils/fabricConsumptionCalculator.js:69-70 | a non-negative shrinkage never lowers a positive dimension |
| FabricConsumption.AdjustmentsOnlyAdd | frontend/src/utils/fabricConsumptionCalculator.js:78-82 | with efficiency in (0, 100] and non-negative wastage, theoretical <= marker-adjusted <= actual consumption |
| FabricConsumption.LowerEfficiencyNeedsMore | frontend/src/utils/fabricConsumptionCalculator.js:78-79 | a lower marker efficiency never gives a smaller actual consumption |
| FabricConsumption.TheoreticalNonNegative | frontend/src/utils/fabricConsumptionCalculator.js:72-76 | with validated inputs the theoretical consumption is not negative |
| FabricConsumption.ActualAtLeastTheoretical | frontend/src/utils/fabricConsumptionCalculator.js:76-82 | for validated inputs, 0 <= theoretical <= actual consumption and the waste per piece is not negative |
| FabricConsumption.LowerEfficiencyMoreFabric | frontend/src/utils/fabricConsumptionCalculator.js:200-206 | lowering the marker efficiency, all else equal, never lowers the actual consumption |
| FabricConsumption.Assemble | frontend/src/utils/fabricConsumptionCalculator.js:209-227 | the assembled figures are scaled consistently: per dozen is 12 pieces, cost is consumption times price, the order total and the order cost are the per-piece figures times the quantity, waste is actual minus theoretical |
| FabricConsumption.ScalingIdentities | frontend/src/utils/fabricConsumptionCalculator.js:330-355 | for every garment family, per dozen is 12 pieces, costs are consumption times price, order totals are per-piece figures times the quantity and waste is actual minus theoretical |
| FabricConsumption.UtilizationInRange | frontend/src/utils/fabricConsumptionCalculator.js:105 | for validated inputs, utilization is efficiency x (100 - wastage) / 100 and lies in 0..100 |
| FabricConsumption.UtilizationBounds | frontend/src/utils/fabricConsumptionCalculator.js:225 | with efficiency in (0, 100] and wastage in [0, 50], utilization lies in 0..100 |
| FabricConsumption.UtilizationAndWasteReported | frontend/src/utils/fabricConsumptionCalculator.js:137-138 | the reported utilization and waste are u and 100 - u rounded to cents, so they sum to 100 within 0.01 |
| FabricConsumption.PatternsAcrossFit | frontend/src/utils/fabricConsumptionCalculator.js:195-197 | when the width holds at least one pattern, exactly as many as fit are counted (n patterns fit, n + 1 do not); when it holds none, 1 is used |
| FabricConsumption.DenimIsWovenWithRepeat | frontend/src/utils/fabricConsumptionCalculator.js:312-321 | every denim figure equals the woven figure with the 7.2-inch accessory allowance in place of the pattern repeat |
| FabricConsumption.FOBMarkup | frontend/src/utils/fabricConsumptionCalculator.js:436-441 | the total cost is fabric plus other costs, the profit is the cost times the margin, a dozen costs 12 pieces, and a 0% margin prices at cost |
| FabricConsumption.FOBShares | frontend/src/utils/fabricConsumptionCalculator.js:443-444 | with a positive total cost and a margin above -100%, both shares are defined, the fabric and other shares of cost sum to 100, and the share of FOB is the share of cost divided by the markup |
| FabricConsumption.FOBSharesUndefinedAtZeroCost | frontend/src/utils/fabricConsumptionCalculator.js:443-457 | with zero total cost both shares are undefined, as JavaScript's division by zero is |
| FabricConsumption.CalculateFOBImpact | frontend/src/utils/fabricConsumptionCalculator.js:436-458 | the margin is echoed and the fabric share of cost is missing exactly when the total cost is zero; see FabricConsumption.FOBMarkup and FabricConsumption.FOBShares |
| FabricConsumption.GetRecommendedEfficiency | frontend/src/utils/fabricConsumptionCalculator.js:464-469 | no range exactly for a name inherited from Object.prototype (the `||` fallback is not taken); otherwise the range is ordered and lies in (0, 100] |
| FabricConsumption.GetRecommendedShrinkage | frontend/src/utils/fabricConsumptionCalculator.js:471-476 | no shrinkage pair exactly for a name inherited from Object.prototype; otherwise both lie in [0, 50], width at most length |
| FabricConsumption.GetRecommendedWastage | frontend/src/utils/fabricConsumptionCalculator.js:478-483 | no range exactly for a name inherited from Object.prototype; otherwise the range is ordered and lies in [0, 50] |
| FabricConsumption.UnknownTagFallsBackToWoven | frontend/src/utils/fabricConsumptionCalculator.js:464-480 | an unknown tag gets the woven recommendations, except a name inherited from Object.prototype ("constructor", "__proto__", "toString", …), which gets none |
| FabricConsumption.RecommendedValuesPassValidation | frontend/src/utils/fabricConsumptionCalculator.js:16-34 | wherever a tag has recommendations, the typical efficiency and wastage lie within their ranges, and with the recommended shrinkages they pass the validation rules |
| MarginAnalyzer.TrimsGradedOnFabricBands | frontend/src/utils/marginAnalyzer.js:145 | trims have no band of their own and are graded on the fabric bands |
| MarginAnalyzer.OtherLinesUseOwnBands | frontend/src/utils/marginAnalyzer.js:16-25 | every other cost line is graded on its own bands |
| MarginAnalyzer.Grade | frontend/src/utils/marginAnalyzer.js:147-151 | the grade is the highest status whose band the percentage reaches |
| MarginAnalyzer.Contributors | frontend/src/utils/marginAnalyzer.js:163 | exactly the enabled lines with a positive cost are kept |
| MarginAnalyzer.SortByPercent | frontend/src/utils/marginAnalyzer.js:164 | the ranking is a permutation of its input |
| MarginAnalyzer.Clamp | frontend/src/utils/marginAnalyzer.js:332 | the score lies in 0..100: a raw score below 0 becomes 0, one above 100 becomes 100, and one in range is kept |
| MarginAnalyzer.SumEnabledCosts | frontend/src/utils/marginAnalyzer.js:106-112 | the loop returns the sum of the enabled lines' costs |
| MarginAnalyzer.FillBreakdown | frontend/src/utils/marginAnalyzer.js:142-159 | each line carries its cost, its percentage of the target, its grade and its toggle |
| MarginAnalyzer.GradeLine | frontend/src/utils/marginAnalyzer.js:144-158 | one line's percent is its share of a positive target (0 otherwise) and its status is the highest band of its own threshold the percent reaches |
| MarginAnalyzer.ClassifyOrder | frontend/src/utils/marginAnalyzer.js:209-220 | the order size and efficiency follow the quantity thresholds 500, 2000, 5000 and 10000 |
| MarginAnalyzer.ApplyMarginRule | frontend/src/utils/marginAnalyzer.js:279-292 | appends the factor of the margin's band and adds its impact (-40, -25, -10, +5 or nothing) |
| MarginAnalyzer.ApplyFlagRules | frontend/src/utils/marginAnalyzer.js:294-305 | appends the flag factors and lowers the score by 12 per critical flag and 5 per high flag |
| MarginAnalyzer.ApplyOrderRule | frontend/src/utils/marginAnalyzer.js:307-317 | appends the order factor and adds -15 below 500 pieces, -8 below 2000 and +5 from 5000 |
| MarginAnalyzer.ApplyGapRule | frontend/src/utils/marginAnalyzer.js:319-329 | appends the gap factor and adds -15 below -10%, -8 below -5% and +5 above 5% |
| MarginAnalyzer.CalculateFeasibilityScore | frontend/src/utils/marginAnalyzer.js:275-367 | the factors are the four rules' factors in order, the score is 100 plus their impacts clamped to 0..100, and status and recommendation follow the score; together this is the specification function's result |
| MarginAnalyzer.CalculateMarginAnalysis | frontend/src/utils/marginAnalyzer.js:71-270 | every field of the result is given: the echoed target, quote, quantity and profit as read, 0 when missing; the rounded total, gross margin, margin %, break-even, target FOB with profit, variance, price gap and gap %; viability; the breakdown, ranking, driver and flags; the order size and efficiency; the three order totals; and the feasibility record |
| MarginAnalyzer.MarginFigures | frontend/src/utils/marginAnalyzer.js:122-225 | the margin, price-gap, target-FOB and order-value figures before rounding, with the order's value less its cost equal to its profit |
| MarginAnalyzer.OrderValueSplits | frontend/src/utils/marginAnalyzer.js:223-225 | the order profit is the order value less the order cost |
| MarginAnalyzer.AnalyzeCostDominance | frontend/src/utils/marginAnalyzer.js:139-195 | the breakdown, the top three, the driver and the flags are those of the specification functions over the graded lines |
| MarginAnalyzer.TotalCostExpanded | frontend/src/utils/marginAnalyzer.js:95-112 | the total cost is the sum over the eight lines of each enabled line's cost |
| MarginAnalyzer.NoTogglesEnablesAll | frontend/src/utils/marginAnalyzer.js:91-104 | with no toggles every line counts |
| MarginAnalyzer.DisablingRemovesLine | frontend/src/utils/marginAnalyzer.js:106-112 | switching a line off lowers the total by exactly that line's cost |
| MarginAnalyzer.MarginSignIsBreakEven | frontend/src/utils/marginAnalyzer.js:122-126 | with a positive target the margin is non-negative exactly when the cost does not exceed the target |
| MarginAnalyzer.NoTargetMeansZeroPercents | frontend/src/utils/marginAnalyzer.js:123 | without a positive target the margin and every line percentage are zero |
| MarginAnalyzer.ViableIffMarginCoversProfit | frontend/src/utils/marginAnalyzer.js:133-137 | the target reaches the cost marked up by the target profit p exactly when the margin reaches 100p / (100 + p) |
| MarginAnalyzer.ZeroProfitViabilityIsBreakEven | frontend/src/utils/marginAnalyzer.js:133-137 | with no profit required, viable means the target covers the cost |
| MarginAnalyzer.PriceGapSign | frontend/src/utils/marginAnalyzer.js:129-130 | with a positive quote the gap is positive exactly when the target exceeds the quote, and zero exactly when they are equal |
| MarginAnalyzer.NoQuoteNoGapFactor | frontend/src/utils/marginAnalyzer.js:130 | without a quote the gap is zero and the gap rule adds no factor |
| MarginAnalyzer.GradingIgnoresToggles | frontend/src/utils/marginAnalyzer.js:143-158 | a line's grade does not depend on whether it is switched on |
| MarginAnalyzer.FlaggedAreHighOrCritical | frontend/src/utils/marginAnalyzer.js:187-195 | a line is flagged exactly when its grade is high or critical, with the critical warning exactly for critical lines |
| MarginAnalyzer.DisabledLinesStillFlagged | frontend/src/utils/marginAnalyzer.js:187-188 | a switched-off line at or above its critical band is flagged critical although it does not contribute |
| MarginAnalyzer.RankedCostsAreSortedContributors | frontend/src/utils/marginAnalyzer.js:162-164 | the ranking holds exactly the contributing lines, ordered by percentage descending with ties in key order |
| MarginAnalyzer.TopContributorsAreTheLargest | frontend/src/utils/marginAnalyzer.js:166-169 | the top contributors are at most three contributing lines, ranked, and every contributor left out ranks after each of them |
| MarginAnalyzer.CostDriverFromTopLine | frontend/src/utils/marginAnalyzer.js:171-184 | no contributor means Balanced; any other driver names the top-ranked line (fabric above 50%, CM above 28%, washing above 12%), which no contributor exceeds |
| MarginAnalyzer.OrderSizeMonotone | frontend/src/utils/marginAnalyzer.js:209-220 | a larger quantity never falls in a smaller size category |
| MarginAnalyzer.LargeOrderBonusMatchesCategory | frontend/src/utils/marginAnalyzer.js:307-317 | the large-order bonus applies exactly to Large and Bulk orders and a small-order penalty exactly to Small ones |
| MarginAnalyzer.UnclampedScore | frontend/src/utils/marginAnalyzer.js:276-329 | the raw score is 100 plus the margin, flag, order and gap impacts |
| MarginAnalyzer.StatusBands | frontend/src/utils/marginAnalyzer.js:334-347 | Green and Accept exactly from 75, Amber from 50 to 74, Red and Reject exactly below 50 |
| MarginAnalyzer.ScoreMonotone | frontend/src/utils/marginAnalyzer.js:279-332 | a higher margin, a larger order, fewer flags or a higher gap never lowers the score |
| MarginAnalyzer.WorkedExample | frontend/src/utils/marginAnalyzer.js:275-347 | an 8% margin, one critical flag, 300 pieces and no quote score 48, which is Red / Reject |
| MarginAnalyzer.LabelMatchesMarginFactor | frontend/src/utils/marginAnalyzer.js:459-465 | each margin label corresponds exactly to one impact of the feasibility margin rule |
| MarginAnalyzer.ColorFollowsLabel | frontend/src/utils/marginAnalyzer.js:448-454 | two margins get the same colour exactly when they get the same label |
| MarginAnalyzer.GetMarginStatusLabel | frontend/src/utils/marginAnalyzer.js:459-465 | the label is Critical exactly below 5%, Healthy exactly from 15% up to 20%, and Strong exactly from 20%; see MarginAnalyzer.LabelMatchesMarginFactor |
| MarginAnalyzer.GetMarginStatusColor | frontend/src/utils/marginAnalyzer.js:448-454 | the colour is red exactly for a Critical label and teal exactly for a Strong one; see MarginAnalyzer.ColorFollowsLabel |
| VersionConfig.JoinSplit | frontend/src/utils/versionConfig.js:33 | joining the '.'-separated pieces back gives the original text, so splitting loses nothing |
| VersionConfig.Cmp | frontend/src/utils/versionConfig.js:37-45 | the comparison answers only -1, 0 or 1 |
| VersionConfig.CompareVersions | frontend/src/utils/versionConfig.js:32-46 | the result is the segment-wise comparison of the normalised versions, and is -1, 0 or 1 |
| VersionConfig.CompareSegments | frontend/src/utils/versionConfig.js:37-45 | the loop up to the longer list returns the padded lexicographic comparison of the segment values |
| VersionConfig.CmpReflexive | frontend/src/utils/versionConfig.js:37-45 | every version compares equal to itself |
| VersionConfig.CmpAntisymmetric | frontend/src/utils/versionConfig.js:37-45 | swapping the arguments negates the answer |
| VersionConfig.CmpTransitive | frontend/src/utils/versionConfig.js:37-45 | if a is newer than b and b newer than c, then a is newer than c |
| VersionConfig.TrailingZeroSegment | frontend/src/utils/versionConfig.js:37-39 | a trailing 0 or non-numeric segment does not change the comparison, so "1.2" equals "1.2.0" |
| VersionConfig.LeadingVIgnored | frontend/src/utils/versionConfig.js:33 | a leading "v" is stripped before comparing |
| VersionConfig.NonNumericSegmentIsZero | frontend/src/utils/versionConfig.js:38-39 | a segment that is not a whole decimal number reads as NaN and counts as 0 |
| VersionConfig.SegmentsCompareAsNumbers | frontend/src/utils/versionConfig.js:33-42 | segments compare by numeric value, not as text: `p.q` is newer than `p.r` whenever q is a larger number than r (so 2.10 is newer than 2.9) |
| VersionConfig.ZeroSuffixIgnored | frontend/src/utils/versionConfig.js:37-39 | appending a ".0" segment to any version never changes how it compares (so "1.0" equals "1.0.0") |
| VersionConfig.ShouldCheckForUpdates | frontend/src/utils/versionConfig.js:49-64 | a check is always due when no time was recorded |
| VersionConfig.DueStaysDue | frontend/src/utils/versionConfig.js:53-59 | once a check is due it stays due at every later time until a new time is recorded |
| VersionConfig.UnparsableTimeNeverDue | frontend/src/utils/versionConfig.js:55-59 | an unreadable recorded time never makes a check due |
| VersionConfig.DueOneIntervalAfterRecording | frontend/src/utils/versionConfig.js:66-76 | after recording the time, the next check is due exactly one interval later |
| UpdateChecker.Find | frontend/src/utils/updateChecker.js:96-98 | the first asset whose name has the extension, if any |
| UpdateChecker.GetDownloadUrl | frontend/src/utils/updateChecker.js:93-119 | the release page when there are no assets, otherwise the URL of one of the assets |
| UpdateChecker.ApkPreferred | frontend/src/utils/updateChecker.js:94-102 | the first APK asset is chosen whenever there is one |
| UpdateChecker.IpaNext | frontend/src/utils/updateChecker.js:104-111 | without an APK, the first IPA asset is chosen |
| UpdateChecker.FirstAssetOtherwise | frontend/src/utils/updateChecker.js:113-114 | without either, the first asset is chosen |
| UpdateChecker.ExtensionIgnoresCase | frontend/src/utils/updateChecker.js:96-98 | a name that ends in any upper- or mixed-case spelling of the extension ("App.APK") counts as having it |
| UpdateChecker.DismissedUpdates.constructor | frontend/src/utils/updateChecker.js:124-140 | nothing is dismissed at first |
| UpdateChecker.DismissedUpdates.IsUpdateDismissed | frontend/src/utils/updateChecker.js:124-140 | a version is dismissed exactly when it is one of the stored versions |
| UpdateChecker.DismissedUpdates.DismissUpdate | frontend/src/utils/updateChecker.js:145-166 | the version is added once, at the end, only when not already dismissed, and the list stays free of duplicates |
| UpdateChecker.DismissedUpdates.ClearDismissedUpdates | frontend/src/utils/updateChecker.js:171-177 | no version is dismissed afterwards |
| UpdateChecker.CheckForUpdates | frontend/src/utils/updateChecker.js:19-71 | an update is offered exactly when a check is due, a release was fetched and its tag is newer than the app's version; the offer carries the stripped version, the download URL and defaulted notes and name |
| UpdateChecker.SameVersionNotNewer | frontend/src/utils/updateChecker.js:43-52 | a tag that is the current version, with or without a leading "v", is never newer than it, so the running version is never offered |
| UpdateChecker.NewerIsAsymmetric | frontend/src/utils/updateChecker.js:49-51 | when a tag is newer than the current version, the current version compares older than the tag |
| Exporters.ToNumber | frontend/src/utils/exporters.js:6-9 | numbers pass through, text that parses gives its parsed value, and undefined, NaN and unparsable text give 0 |
| Exporters.BuildFOBData | frontend/src/utils/exporters.js:11-59 | missing style, buyer and garment type read "N/A" (and a missing garment type gets no knit block), and the margin is its numeric value; see Exporters.FinalFobIsPerDozen and Exporters.PerDozenFallback |
| Exporters.FinalFobIsPerDozen | frontend/src/utils/exporters.js:13-14 | the per-dozen FOB is the FOB rounded to cents and the per-piece FOB is the FOB over 12, within half a cent |
| Exporters.PerDozenFallback | frontend/src/utils/exporters.js:15-17 | a present nonzero per-dozen total is kept, while a missing or zero per-dozen total or fabric cost falls back to twelve times the per-piece one |
| Exporters.PerDozenLinesAreTwelveTimes | frontend/src/utils/exporters.js:32-43 | each line's per-dozen value is twelve times its per-piece input rounded to cents, within 6.5 cents of twelve times the rounded per-piece value |
| Exporters.MissingLineIsZero | frontend/src/utils/exporters.js:32-43 | a missing cost input exports as 0 both per piece and per dozen |
| Exporters.KnitConsumptionBlock | frontend/src/utils/exporters.js:45-57 | the kilogram block is used exactly for the "T-Shirt (Knit)" breakdown, and a missing style or buyer exports as "N/A" |
| Exporters.SafeFileName | frontend/src/utils/exporters.js:147 | the name keeps its length, holds only letters, digits, '_' and '-', and is unchanged exactly when it already did |
| Exporters.SafeFileNameIdempotent | frontend/src/utils/exporters.js:609 | sanitising twice is sanitising once |
| Exporters.SafeFileNameKeepsAllowed | frontend/src/utils/exporters.js:866 | allowed characters stay at their place |
| Exporters.SafeFileNameHasNoSeparator | frontend/src/utils/exporters.js:1326 | the sanitised name holds no slash, backslash or '.' |
| Exporters.GarmentTypeLabelIff | frontend/src/utils/exporters.js:630-637 | the label differs from the tag exactly for knit, woven and denim |
| Exporters.GetGarmentTypeLabel | frontend/src/utils/exporters.js:630-637 | the three known tags get a longer label of their own and every other tag is shown unchanged |
| HistoryScreen.ToggleSelection | frontend/src/screens/HistoryScreen.js:102 | the toggled id is selected afterwards exactly when it was not before, and no other id changes |
| HistoryScreen.ToggleKeepsNoDuplicates | frontend/src/screens/HistoryScreen.js:102 | toggling keeps the selection free of duplicates |
| HistoryScreen.ToggleTwice | frontend/src/screens/HistoryScreen.js:102 | toggling the same id twice restores the selected set, and the list itself when the id was not selected |
| HistoryScreen.DeleteById | frontend/src/screens/HistoryScreen.js:63 | exactly the entries with that id are gone |
| HistoryScreen.DeleteSelected | frontend/src/screens/HistoryScreen.js:80 | exactly the entries whose id is selected are gone |
| HistoryScreen.DeletePreservesOrder | frontend/src/screens/HistoryScreen.js:58-87 | deleting from a concatenation deletes from each part, so the survivors keep their order |
| HistoryScreen.DeleteAbsentIsIdentity | frontend/src/screens/HistoryScreen.js:63 | deleting an id that is not present changes nothing |
| HistoryScreen.DeleteOneSelected | frontend/src/screens/HistoryScreen.js:71-87 | deleting a one-id selection is deleting that id |
| HistoryScreen.DeleteAfterSave | frontend/src/screens/HistoryScreen.js:58-69 | deleting the id just saved removes at least one entry and leaves none with that id |
| HistoryScreen.FobPerPcDisplay | frontend/src/screens/HistoryScreen.js:115 | the per-dozen FOB over 12, or the per-piece FOB when the per-dozen one is missing or 0 |
| HistoryScreen.FobPerPcConsistent | frontend/src/screens/HistoryScreen.js:115 | a per-dozen FOB of twelve times the per-piece one, or none at all, displays the per-piece FOB |
| FabricAnalyzerResult.FobImpactFor | frontend/src/screens/FabricAnalyzerResultScreen.js:30-38 | the FOB impact uses the entered margin, or 0 when it does not parse, and missing other costs count as 0 |
| FabricAnalyzerResult.RecordFor | frontend/src/screens/FabricAnalyzerResultScreen.js:49-54 | the saved record keeps the analysis and the FOB figures; its margin is the entered one, or 10 when that does not parse or is 0 |
| FabricAnalyzerResult.ClearedMarginSavedAsTen | frontend/src/screens/FabricAnalyzerResultScreen.js:29-54 | a cleared margin prices the FOB at 0% but is saved as 10% |
| FabricAnalyzerResult.IndexOfId | frontend/src/screens/FabricAnalyzerResultScreen.js:47 | the first index holding the id, or none when the id is absent |
| FabricAnalyzerResult.SavedHistory | frontend/src/screens/FabricAnalyzerResultScreen.js:56-64 | an existing entry with the id is replaced in place and nothing else changes; otherwise the record goes first, followed by the old entries, cut to 50 |
| FabricAnalyzerResult.FindIndex | frontend/src/screens/FabricAnalyzerResultScreen.js:47 | the loop finds the first index holding the id |
| FabricAnalyzerResult.SaveToHistory | frontend/src/screens/FabricAnalyzerResultScreen.js:41-64 | the stored history becomes the upserted history |
| FabricAnalyzerResult.SavedHoldsRecord | frontend/src/screens/FabricAnalyzerResultScreen.js:56-64 | after saving, the record is in the history |
| FabricAnalyzerResult.SavedWithinLimit | frontend/src/screens/FabricAnalyzerResultScreen.js:58-63 | a history of at most 50 entries still has between 1 and 50 after saving |
| FabricAnalyzerResult.SavedKeepsIdsUnique | frontend/src/screens/FabricAnalyzerResultScreen.js:47-64 | saving keeps the ids distinct |
| FabricAnalyzerResult.SaveIdempotent | frontend/src/screens/FabricAnalyzerResultScreen.js:47-64 | saving the same record twice is saving it once |
| InputScreen.NumericFields | frontend/src/screens/InputScreen.js:95-113 | the six per-dozen costs and the margin come first, followed by exactly the garment's own fields (none for an unknown garment) |
| InputScreen.HandleNumericChange | frontend/src/screens/InputScreen.js:86-91 | the field is set to the typed text when the filter accepts it, and the form is left unchanged otherwise |
| InputScreen.PerDozenFieldsAlwaysRequired | frontend/src/screens/InputScreen.js:95-118 | every per-dozen field is required whatever the garment, and t-shirts, shirts and jeans require 16, 15 and 17 fields |
| InputScreen.PartialEntriesDoNotParse | frontend/src/screens/InputScreen.js:122-130 | "", "-" and "." do not parse as numbers |
| InputScreen.CleanedData | frontend/src/screens/InputScreen.js:116-137 | the cleaned form has the same fields as the entered form |
| InputScreen.HandleCalculate | frontend/src/screens/InputScreen.js:93-137 | it refuses exactly when a required field does not parse, and otherwise returns the per-piece converted form |
| InputScreen.ValidateAndConvert | frontend/src/screens/InputScreen.js:115-137 | for any list of fields, it refuses exactly when one of them is '', '-', '.' or does not parse, and otherwise returns the form with every listed field converted and the others untouched |
| InputScreen.CleanedFieldsAreNumbers | frontend/src/screens/InputScreen.js:131-136 | every required field becomes a number, per-dozen ones divided by 12 |
| InputScreen.LoadedForEdit | frontend/src/screens/InputScreen.js:62-70 | loading for edit keeps the same fields |
| InputScreen.EditLoad | frontend/src/screens/InputScreen.js:59-75 | the loop builds the form shown for editing, per-piece costs turned into rounded per-dozen values |
| InputScreen.LoadThenCalculate | frontend/src/screens/InputScreen.js:62-133 | loading a saved sheet and calculating again gives back the per-piece cost of each per-dozen field to within half a cent per dozen, and every other field unchanged |
| BuyerAnalyzerInput.FieldStaysAccepted | frontend/src/screens/BuyerAnalyzerInputScreen.js:122-126 | a field that holds accepted text still holds accepted text after any keystroke |
| BuyerAnalyzerInput.HandleNumericChange | frontend/src/screens/BuyerAnalyzerInputScreen.js:122-126 | the field takes the typed text when the filter accepts it and keeps its old text otherwise; see BuyerAnalyzerInput.FieldStaysAccepted |
| BuyerAnalyzerInput.ToggleCost | frontend/src/screens/BuyerAnalyzerInputScreen.js:128-130 | the toggled line is present and flipped, and no other line changes |
| BuyerAnalyzerInput.TogglesStayComplete | frontend/src/screens/BuyerAnalyzerInputScreen.js:49-58 | all eight toggles start on, and a complete set of toggles stays complete through any toggling |
| BuyerAnalyzerInput.ToggleTwice | frontend/src/screens/BuyerAnalyzerInputScreen.js:128-130 | toggling a line twice restores every line's state, and the map itself when the line was present |
| BuyerAnalyzerInput.CalculateTotalCost | frontend/src/screens/BuyerAnalyzerInputScreen.js:132-143 | the total is the sum of the switched-on lines' parsed costs |
| BuyerAnalyzerInput.ScreenTotalMatchesAnalyzer | frontend/src/screens/BuyerAnalyzerInputScreen.js:132-143 | with all toggles present, the screen's total equals the analyzer's total for the inputs it sends |
| BuyerAnalyzerInput.MissingToggleDisagrees | frontend/src/screens/BuyerAnalyzerInputScreen.js:134 | a line with no toggle is off for the screen's total but on for the analyzer |
| BuyerAnalyzerInput.PreviewMatchesAnalyzer | frontend/src/screens/BuyerAnalyzerInputScreen.js:193-196 | with all toggles present, the preview margin equals the analyzer's margin |
| BuyerAnalyzerInput.PreviewMargin | frontend/src/screens/BuyerAnalyzerInputScreen.js:194-196 | for a positive parsed target the preview is the analyzer's margin formula, and 0 otherwise |
| BuyerAnalyzerInput.ToAnalyzerInputs | frontend/src/screens/BuyerAnalyzerInputScreen.js:160-177 | the target is the parsed text (missing when it does not parse), quote, quantity and target profit are always present, the toggles are the screen's and every cost line has a value |
| BuyerAnalyzerInput.HandleAnalyzeAsWritten | frontend/src/screens/BuyerAnalyzerInputScreen.js:145-178 | as written: refuses when the target check fires, then when the total is not positive, otherwise analyses the form's inputs |
| BuyerAnalyzerInput.DigitlessTargetPassesWrittenCheck | frontend/src/screens/BuyerAnalyzerInputScreen.js:147 | "." and "-" pass the written target check |
| BuyerAnalyzerInput.DotTargetReachesAnalyzer | frontend/src/screens/BuyerAnalyzerInputScreen.js:147-180 | as written, a target of "." is analysed against a target of 0, giving a 0% margin |
| BuyerAnalyzerInput.TargetChecksAgreeOnNumbers | frontend/src/screens/BuyerAnalyzerInputScreen.js:147 | the intended check refuses exactly what the written one refuses plus the texts that do not parse |
| BuyerAnalyzerInput.HandleAnalyze | frontend/src/screens/BuyerAnalyzerInputScreen.js:145-178 | refuses a missing or non-positive target, then a non-positive total, otherwise analyses the form's inputs |
| BuyerAnalyzerInput.AnalyzedInputsArePositive | frontend/src/screens/BuyerAnalyzerInputScreen.js:145-161 | an analysis that passes both checks gets the parsed, positive target and a positive total cost |
| BuyerAnalyzerInput.InputDefaults | frontend/src/screens/BuyerAnalyzerInputScreen.js:162-176 | an empty or zero quantity becomes 1000 and an empty or zero target profit becomes 15, while any other parsed quantity or target profit is kept as the analyzer reads it |

## Left out

- Rendering, navigation, alerts, loading flags and the report and spreadsheet
  layouts are not modelled. Labels, emoji, warning strings and the
  feasibility justification text are left out too; only their choice between
  cases is modelled.
- Storage, the network, clocks and id generation are parameters. Saved
  history and dismissed versions are values in the model, and the current
  time and the fetched release are inputs. The `savedAt` time stamp of a
  saved fabric analysis is not a field of the model's saved record.
- The scenario simulator and the shared cost-sheet calculation helpers are not part of this model.
- Deleting cost sheets and deleting all history go through storage helpers that are not part of this model.
- The buyer screen's loading of a saved analysis for editing and its import of fabric figures are not modelled.
- Floating point is not modelled; numbers are exact reals. This leaves out:
  - binary rounding error and `Number.EPSILON`;
  - `toFixed` rounding halves away from zero for negative values;
  - infinities other than the undefined FOB shares.
- A failing storage read, after which a check is treated as due, is not modelled; the stored record is an input.
- `parseFloat`, `parseInt` and `Number` do not model leading or trailing
  whitespace (`Number` trims both ends, so a version segment "2 " is 2 in
  JavaScript and 0 in the model), exponents, `Infinity` or hexadecimal text.
- The calculator functions require their divisors to be nonzero (`KnitDefined`, `WovenDefined`); validated inputs meet this, while JavaScript would return `Infinity` or `NaN` for others.
- Fabric inputs are modelled as numbers. Comparisons of `undefined`
  shrinkage or wastage in the validation are not modelled.
- Exporters.ToNumber: `null` is not a modelled value; JavaScript's `toNumber(null)` returns `null` (since `isNaN(null)` is false), where the model only has undefined and NaN, which give 0.
- Exporters.SafeFileName: strings are sequences of Unicode code points in the model, not UTF-16 code units, so a character outside the Basic Multilingual Plane (the emoji in "Tee😀") becomes one '_' where JavaScript writes two.
- UpdateChecker.Lower, UpdateChecker.LowerChar: letter case is folded for ASCII only; JavaScript's `toLowerCase` also folds other letters (the Kelvin sign U+212A becomes 'k'), so such a name can count as an .apk in the app but not in the model.
- CalculateMarginAnalysis: the echoed currency and incoterm strings and the `timestamp` (a clock read) are not fields of the model's result; the echoed target, quote, quantity and profit are.
- BuyerAnalyzerInput.PreviewMargin: the one-decimal text formatting is not modelled, only the number it formats.
- MarginAnalyzer.SortByPercent: the sort is modelled as a stable insertion sort; JavaScript engines guarantee stability but not the algorithm.
- The cost-sheet form's non-numeric fields, such as names and the garment type, pass through unchanged and carry no property.

## Findings

| source | as written | input that shows it | evidently intended | confidence | as-written member | corrected member |
|---|---|---|---|---|---|---|
| frontend/src/screens/BuyerAnalyzerInputScreen.js:147 | the target check is `!t \|\| parseFloat(t) <= 0`, and `parseFloat` of a digitless entry is `NaN`, which is not `<= 0` | target "." (or "-") with any cost entered | refuse any target that does not parse to a positive number | not executed | BuyerAnalyzerInput.DotTargetReachesAnalyzer | BuyerAnalyzerInput.HandleAnalyze |
