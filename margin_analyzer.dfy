/**
 * Buyer-centric cost and margin analysis (frontend/src/utils/marginAnalyzer.js).
 *
 * Eight cost lines, each with an enable toggle, are summed into a total
 * cost and compared with the buyer's target FOB: margin, break-even,
 * viability and price gap; every line (enabled or not) is graded against a
 * band table; the enabled positive lines are ranked; high and critical lines
 * are flagged; and a feasibility score starts at 100, takes signed factor
 * impacts, is clamped to [0, 100] and mapped to Red / Amber / Green.
 */
module MarginAnalyzer {
  import opened JsNumber

  // ---------------------------------------------------------------------------
  // The eight cost lines and their band table
  // ---------------------------------------------------------------------------

  datatype CostKey = Fabric | Trims | Packaging | Cm | Washing | Testing | Logistics | Overhead

  /** The cost lines in the order the source lists (and iterates) them. */
  const CostKeys: seq<CostKey> := [Fabric, Trims, Packaging, Cm, Washing, Testing, Logistics, Overhead]

  function KeyIndex(k: CostKey): (i: nat)
    ensures i < |CostKeys| && CostKeys[i] == k
  {
    match k
    case Fabric => 0
    case Trims => 1
    case Packaging => 2
    case Cm => 3
    case Washing => 4
    case Testing => 5
    case Logistics => 6
    case Overhead => 7
  }

  /** The property name of the line in the source's objects. */
  function KeyName(k: CostKey): string
  {
    match k
    case Fabric => "fabric"
    case Trims => "trims"
    case Packaging => "packaging"
    case Cm => "cm"
    case Washing => "washing"
    case Testing => "testing"
    case Logistics => "logistics"
    case Overhead => "overhead"
  }

  /** A band of percent-of-target thresholds. */
  datatype Band = Band(low: real, typical: real, high: real, critical: real)

  const COST_THRESHOLDS: map<string, Band> := map[
    "fabricPercent" := Band(35.0, 45.0, 55.0, 65.0),
    "trimPercent" := Band(5.0, 8.0, 12.0, 15.0),
    "cmPercent" := Band(15.0, 22.0, 30.0, 40.0),
    "washingPercent" := Band(0.0, 5.0, 10.0, 15.0),
    "packagingPercent" := Band(2.0, 4.0, 6.0, 10.0),
    "testingPercent" := Band(1.0, 2.0, 4.0, 6.0),
    "logisticsPercent" := Band(2.0, 4.0, 7.0, 10.0),
    "overheadPercent" := Band(3.0, 5.0, 8.0, 12.0)]

  /** `COST_THRESHOLDS[`${key}Percent`] || COST_THRESHOLDS.fabricPercent`. */
  function ThresholdFor(k: CostKey): Band
  {
    var name := KeyName(k) + "Percent";
    if name in COST_THRESHOLDS then COST_THRESHOLDS[name] else COST_THRESHOLDS["fabricPercent"]
  }

  /**
   * Trims look up "trimsPercent", which the table does not have, and so are
   * graded on the fabric bands, not on the trim bands the table holds.
   */
  lemma TrimsGradedOnFabricBands()
    ensures ThresholdFor(Trims) == Band(35.0, 45.0, 55.0, 65.0)
    ensures "trimPercent" in COST_THRESHOLDS && COST_THRESHOLDS["trimPercent"] != ThresholdFor(Trims)
  {
    assert KeyName(Trims) + "Percent" == "trimsPercent";
    assert "trimsPercent" !in COST_THRESHOLDS by {
      assert |"trimsPercent"| == 12;
      assert "trimsPercent"[4] == 's';
    }
  }

  /** Every other line finds its own band. */
  lemma OtherLinesUseOwnBands(k: CostKey)
    requires k != Trims
    ensures KeyName(k) + "Percent" in COST_THRESHOLDS
    ensures ThresholdFor(k) == COST_THRESHOLDS[KeyName(k) + "Percent"]
  {
    match k
    case Fabric => assert KeyName(k) + "Percent" == "fabricPercent";
    case Packaging => assert KeyName(k) + "Percent" == "packagingPercent";
    case Cm => assert KeyName(k) + "Percent" == "cmPercent";
    case Washing => assert KeyName(k) + "Percent" == "washingPercent";
    case Testing => assert KeyName(k) + "Percent" == "testingPercent";
    case Logistics => assert KeyName(k) + "Percent" == "logisticsPercent";
    case Overhead => assert KeyName(k) + "Percent" == "overheadPercent";
  }

  // ---------------------------------------------------------------------------
  // Grading a percentage against a band
  // ---------------------------------------------------------------------------

  datatype Status = Normal | LowStatus | TypicalStatus | HighStatus | CriticalStatus

  function Rank(s: Status): nat
  {
    match s
    case Normal => 0
    case LowStatus => 1
    case TypicalStatus => 2
    case HighStatus => 3
    case CriticalStatus => 4
  }

  /** Whether a percentage reaches the threshold of a status. */
  predicate Reaches(percent: real, b: Band, s: Status)
  {
    match s
    case Normal => true
    case LowStatus => percent >= b.low
    case TypicalStatus => percent >= b.typical
    case HighStatus => percent >= b.high
    case CriticalStatus => percent >= b.critical
  }

  /** The critical / high / typical / low / normal chain: the highest status the percentage reaches. */
  function Grade(percent: real, b: Band): (s: Status)
    ensures Reaches(percent, b, s)
    ensures forall t: Status :: Reaches(percent, b, t) ==> Rank(t) <= Rank(s)
  {
    if percent >= b.critical then CriticalStatus
    else if percent >= b.high then HighStatus
    else if percent >= b.typical then TypicalStatus
    else if percent >= b.low then LowStatus
    else Normal
  }

  // ---------------------------------------------------------------------------
  // Inputs and the unrounded figures
  // ---------------------------------------------------------------------------

  /**
   * The analyzer's inputs. A number that is undefined or NaN is `None`; a
   * cost line the caller did not supply is absent from `costs`; a toggle
   * absent from `costToggles` leaves its line enabled.
   */
  datatype AnalyzerInputs = AnalyzerInputs(
    buyerTargetFob: Option<real>,
    quotedFob: Option<real>,
    orderQuantity: Option<real>,
    targetProfitPercent: Option<real>,
    costs: map<CostKey, real>,
    costToggles: map<CostKey, bool>)

  /** `costToggles[key] !== false`. */
  predicate Enabled(toggles: map<CostKey, bool>, k: CostKey)
  {
    !(k in toggles && !toggles[k])
  }

  /** `parseFloat(cost) || 0`. */
  function CostValue(inputs: AnalyzerInputs, k: CostKey): real
  {
    if k in inputs.costs then inputs.costs[k] else 0.0
  }

  /** `parseInt` of a number: truncation toward zero. */
  function Truncate(x: real): int
  {
    if x >= 0.0 then x.Floor else -((-x).Floor)
  }

  function BuyerTarget(inputs: AnalyzerInputs): real { OrDefault(inputs.buyerTargetFob, 0.0) }

  function Quoted(inputs: AnalyzerInputs): real { OrDefault(inputs.quotedFob, 0.0) }

  function TargetProfit(inputs: AnalyzerInputs): real { OrDefault(inputs.targetProfitPercent, 0.0) }

  /** `parseInt(orderQuantity) || 0`. */
  function Quantity(inputs: AnalyzerInputs): int
  {
    match inputs.orderQuantity
    case None => 0
    case Some(q) => Truncate(q)
  }

  /** The value of a line if it is enabled, else 0. */
  function Contribution(inputs: AnalyzerInputs, k: CostKey): real
  {
    if Enabled(inputs.costToggles, k) then CostValue(inputs, k) else 0.0
  }

  /** The sum of the enabled values among `keys`. */
  function SumEnabled(inputs: AnalyzerInputs, keys: seq<CostKey>): real
  {
    if keys == [] then 0.0
    else SumEnabled(inputs, keys[..|keys| - 1]) + Contribution(inputs, keys[|keys| - 1])
  }

  /** The total cost: the sum of the values of exactly the enabled lines. */
  function TotalCost(inputs: AnalyzerInputs): real
  {
    SumEnabled(inputs, CostKeys)
  }

  /** `buyerTarget > 0 ? (part / buyerTarget) * 100 : 0`. */
  function PercentOfTarget(part: real, target: real): real
  {
    if target > 0.0 then (part / target) * 100.0 else 0.0
  }

  /** `grossMargin`: what the buyer's target leaves over the total cost, per piece. */
  function GrossMargin(target: real, total: real): real
  {
    target - total
  }

  /** `priceGap`: how far the buyer's target lies above (or below) the quote. */
  function PriceGap(target: real, quoted: real): real
  {
    target - quoted
  }

  /** `targetVariance`: how far the buyer's target lies above the cost plus the target profit. */
  function TargetVariance(target: real, withProfit: real): real
  {
    target - withProfit
  }

  /** `marginPercent`: the gross margin as a share of the target, 0 when there is no target. */
  function MarginPercent(target: real, total: real): real
  {
    PercentOfTarget(target - total, target)
  }

  /** `priceGapPercent`: the target's distance from the quote as a share of the quote, 0 without a quote. */
  function PriceGapPercent(target: real, quoted: real): real
  {
    if quoted > 0.0 then ((target - quoted) / quoted) * 100.0 else 0.0
  }

  function TargetFobWithProfit(total: real, profit: real): real
  {
    total * (1.0 + profit / 100.0)
  }

  /** A per-piece amount over the whole order. */
  function OrderValue(perPiece: real, qty: int): real
  {
    perPiece * qty as real
  }

  /** The order's profit is its value less its cost. */
  lemma OrderValueSplits(target: real, total: real, qty: int)
    ensures OrderValue(target, qty) - OrderValue(total, qty) == OrderValue(target - total, qty)
  {
  }

  // ---------------------------------------------------------------------------
  // Cost breakdown, ranking, driver and flags
  // ---------------------------------------------------------------------------

  /** One entry of `costBreakdown` (label and emoji left out). */
  datatype Line = Line(key: CostKey, value: real, enabled: bool, percent: real, status: Status, threshold: Band)

  function LineFor(inputs: AnalyzerInputs, k: CostKey): Line
  {
    var percent := PercentOfTarget(CostValue(inputs, k), BuyerTarget(inputs));
    Line(k, CostValue(inputs, k), Enabled(inputs.costToggles, k), RoundTo2(percent),
         Grade(percent, ThresholdFor(k)), ThresholdFor(k))
  }

  /** The breakdown of all eight lines, in key order. */
  function Breakdown(inputs: AnalyzerInputs): (b: seq<Line>)
    ensures |b| == |CostKeys|
    ensures forall i :: 0 <= i < |b| ==> b[i] == LineFor(inputs, CostKeys[i])
  {
    seq(|CostKeys|, i requires 0 <= i < |CostKeys| => LineFor(inputs, CostKeys[i]))
  }

  /** Whether `a` ranks before `b`: larger rounded percent first, ties in key order. */
  predicate Before(a: Line, b: Line)
  {
    a.percent > b.percent || (a.percent == b.percent && KeyIndex(a.key) < KeyIndex(b.key))
  }

  predicate Ranked(s: seq<Line>)
  {
    forall i, j :: 0 <= i < j < |s| ==> Before(s[i], s[j])
  }

  /** The keys of `s` appear in strictly increasing key order. */
  predicate InKeyOrder(s: seq<Line>)
  {
    forall i, j :: 0 <= i < j < |s| ==> KeyIndex(s[i].key) < KeyIndex(s[j].key)
  }

  predicate Contributes(l: Line)
  {
    l.enabled && l.value > 0.0
  }

  /** `.filter(([_, comp]) => comp.enabled && comp.value > 0)`. */
  function Contributors(s: seq<Line>): (r: seq<Line>)
    ensures forall l :: l in r <==> l in s && Contributes(l)
    ensures |r| <= |s|
  {
    if s == [] then []
    else Contributors(s[..|s| - 1]) + (if Contributes(s[|s| - 1]) then [s[|s| - 1]] else [])
  }

  /** One step of a stable insertion sort by descending percent: after every entry of at least equal percent. */
  function Insert(x: Line, s: seq<Line>): (r: seq<Line>)
    ensures multiset(r) == multiset(s) + multiset{x}
    ensures |r| == |s| + 1
  {
    if s == [] then [x]
    else if s[0].percent >= x.percent then
      assert s == [s[0]] + s[1..];
      [s[0]] + Insert(x, s[1..])
    else [x] + s
  }

  /** `.sort((a, b) => b.percent - a.percent)` with JavaScript's stable sort. */
  function SortByPercent(s: seq<Line>): (r: seq<Line>)
    ensures multiset(r) == multiset(s)
    ensures |r| == |s|
  {
    if s == [] then []
    else
      assert s == s[..|s| - 1] + [s[|s| - 1]];
      Insert(s[|s| - 1], SortByPercent(s[..|s| - 1]))
  }

  /** `sortedCosts`: the enabled, positive lines in ranking order. */
  function RankedCosts(inputs: AnalyzerInputs): seq<Line>
  {
    SortByPercent(Contributors(Breakdown(inputs)))
  }

  /** `topCostContributors`: `sortedCosts.slice(0, 3)`. */
  function TopContributors(ranked: seq<Line>): (t: seq<Line>)
  {
    if |ranked| <= 3 then ranked else ranked[..3]
  }

  datatype CostDriver = Balanced | FabricDriven | LaborDriven | ProcessingDriven

  /** The driver is decided by the top-ranked line alone. */
  function CostDriverOf(ranked: seq<Line>): CostDriver
  {
    if ranked == [] then Balanced
    else
      var top := ranked[0];
      if top.key == Fabric && top.percent > 50.0 then FabricDriven
      else if top.key == Cm && top.percent > 28.0 then LaborDriven
      else if top.key == Washing && top.percent > 12.0 then ProcessingDriven
      else Balanced
  }

  /** Which of the two warning texts a flagged line carries. */
  datatype Warning = CriticallyHigh | ExceedsTypical

  datatype FlaggedCost = FlaggedCost(line: Line, warning: Warning)

  predicate IsFlagged(l: Line)
  {
    l.status == HighStatus || l.status == CriticalStatus
  }

  function FlagOf(l: Line): FlaggedCost
  {
    FlaggedCost(l, if l.status == CriticalStatus then CriticallyHigh else ExceedsTypical)
  }

  /** `flaggedCosts`: the high and critical lines of the breakdown, enabled or not, in order. */
  function Flagged(s: seq<Line>): (r: seq<FlaggedCost>)
    ensures |r| <= |s|
  {
    if s == [] then []
    else Flagged(s[..|s| - 1]) + (if IsFlagged(s[|s| - 1]) then [FlagOf(s[|s| - 1])] else [])
  }

  // ---------------------------------------------------------------------------
  // Order size
  // ---------------------------------------------------------------------------

  const ORDER_SMALL: int := 500
  const ORDER_MEDIUM: int := 2000
  const ORDER_LARGE: int := 5000
  const ORDER_BULK: int := 10000

  datatype OrderSize = Small | Medium | Large | Bulk
  datatype OrderEfficiency = LowEfficiency | StandardEfficiency | HighEfficiency | MaximumEfficiency

  function OrderSizeOf(qty: int): OrderSize
  {
    if qty >= ORDER_BULK then Bulk
    else if qty >= ORDER_LARGE then Large
    else if qty >= ORDER_MEDIUM then Medium
    else Small
  }

  /** The efficiency label paired with each size category. */
  function EfficiencyOf(size: OrderSize): OrderEfficiency
  {
    match size
    case Small => LowEfficiency
    case Medium => StandardEfficiency
    case Large => HighEfficiency
    case Bulk => MaximumEfficiency
  }

  function SizeRank(size: OrderSize): nat
  {
    match size
    case Small => 0
    case Medium => 1
    case Large => 2
    case Bulk => 3
  }

  // ---------------------------------------------------------------------------
  // Feasibility score
  // ---------------------------------------------------------------------------

  const MARGIN_MINIMUM: real := 5.0
  const MARGIN_LOW: real := 10.0
  const MARGIN_HEALTHY: real := 15.0
  const MARGIN_STRONG: real := 20.0
  const MARGIN_PREMIUM: real := 25.0

  datatype FactorKind =
    | MarginBelowMinimum | LowMargin | MarginBelowHealthy | StrongMargin
    | CriticalCostFlags(count: nat) | HighCostFlags(count: nat)
    | VerySmallOrder | SmallOrder | LargeOrderBonus
    | TargetFarBelowQuote | TargetBelowQuote | FavorablePriceGap

  datatype Factor = Factor(kind: FactorKind, impact: int)

  datatype FeasibilityStatus = Red | Amber | Green
  datatype Recommendation = Reject | Renegotiate | Accept

  datatype Feasibility = Feasibility(score: int, status: FeasibilityStatus, recommendation: Recommendation,
                                     factors: seq<Factor>)

  function MarginFactors(marginPercent: real): seq<Factor>
  {
    if marginPercent < MARGIN_MINIMUM then [Factor(MarginBelowMinimum, -40)]
    else if marginPercent < MARGIN_LOW then [Factor(LowMargin, -25)]
    else if marginPercent < MARGIN_HEALTHY then [Factor(MarginBelowHealthy, -10)]
    else if marginPercent >= MARGIN_STRONG then [Factor(StrongMargin, 5)]
    else []
  }

  function FlagFactors(critical: nat, high: nat): seq<Factor>
  {
    (if critical > 0 then [Factor(CriticalCostFlags(critical), -12 * (critical as int))] else [])
    + (if high > 0 then [Factor(HighCostFlags(high), -5 * (high as int))] else [])
  }

  function OrderFactors(qty: int): seq<Factor>
  {
    if qty < ORDER_SMALL then [Factor(VerySmallOrder, -15)]
    else if qty < ORDER_MEDIUM then [Factor(SmallOrder, -8)]
    else if qty >= ORDER_LARGE then [Factor(LargeOrderBonus, 5)]
    else []
  }

  function GapFactors(priceGapPercent: real): seq<Factor>
  {
    if priceGapPercent < -10.0 then [Factor(TargetFarBelowQuote, -15)]
    else if priceGapPercent < -5.0 then [Factor(TargetBelowQuote, -8)]
    else if priceGapPercent > 5.0 then [Factor(FavorablePriceGap, 5)]
    else []
  }

  /** The factors, in the order the scorer pushes them. */
  function Factors(marginPercent: real, qty: int, critical: nat, high: nat, priceGapPercent: real): seq<Factor>
  {
    MarginFactors(marginPercent) + FlagFactors(critical, high) + OrderFactors(qty) + GapFactors(priceGapPercent)
  }

  function ImpactSum(fs: seq<Factor>): int
  {
    if fs == [] then 0 else ImpactSum(fs[..|fs| - 1]) + fs[|fs| - 1].impact
  }

  /** `Math.max(0, Math.min(100, score))`. */
  function Clamp(score: int): (c: int)
    ensures 0 <= c <= 100
    ensures 0 <= score <= 100 ==> c == score
    ensures score < 0 ==> c == 0
    ensures score > 100 ==> c == 100
  {
    if score < 0 then 0 else if score > 100 then 100 else score
  }

  function StatusOf(score: int): FeasibilityStatus
  {
    if score >= 75 then Green else if score >= 50 then Amber else Red
  }

  function RecommendationOf(status: FeasibilityStatus): Recommendation
  {
    match status
    case Green => Accept
    case Amber => Renegotiate
    case Red => Reject
  }

  /** The number of flagged lines with a given status. */
  function CountStatus(flagged: seq<FlaggedCost>, s: Status): (n: nat)
    ensures n <= |flagged|
  {
    if flagged == [] then 0
    else CountStatus(flagged[..|flagged| - 1], s) + (if flagged[|flagged| - 1].line.status == s then 1 else 0)
  }

  /** The feasibility the scorer reports, as a function of its four inputs. */
  function FeasibilityOf(marginPercent: real, orderQuantity: int, flaggedCosts: seq<FlaggedCost>,
                         priceGapPercent: real): Feasibility
  {
    var factors := Factors(marginPercent, orderQuantity, CountStatus(flaggedCosts, CriticalStatus),
                           CountStatus(flaggedCosts, HighStatus), priceGapPercent);
    var score := Clamp(100 + ImpactSum(factors));
    Feasibility(score, StatusOf(score), RecommendationOf(StatusOf(score)), factors)
  }

  /** The margin rule of the scorer: at most one of four adjustments. */
  method ApplyMarginRule(score0: int, factors0: seq<Factor>, marginPercent: real)
    returns (score: int, factors: seq<Factor>)
    ensures factors == factors0 + MarginFactors(marginPercent)
    ensures score == score0 + MarginImpact(marginPercent)
  {
    score, factors := score0, factors0;
    if marginPercent < MARGIN_MINIMUM {
      score := score - 40;
      factors := factors + [Factor(MarginBelowMinimum, -40)];
    } else if marginPercent < MARGIN_LOW {
      score := score - 25;
      factors := factors + [Factor(LowMargin, -25)];
    } else if marginPercent < MARGIN_HEALTHY {
      score := score - 10;
      factors := factors + [Factor(MarginBelowHealthy, -10)];
    } else if marginPercent >= MARGIN_STRONG {
      score := score + 5;
      factors := factors + [Factor(StrongMargin, 5)];
    }
  }

  /** The flag rules: 12 points per critical line and 5 per high line. */
  method ApplyFlagRules(score0: int, factors0: seq<Factor>, criticalFlags: nat, highFlags: nat)
    returns (score: int, factors: seq<Factor>)
    ensures factors == factors0 + FlagFactors(criticalFlags, highFlags)
    ensures score == score0 - 12 * criticalFlags - 5 * highFlags
  {
    score, factors := score0, factors0;
    if criticalFlags > 0 {
      score := score - 12 * (criticalFlags as int);
      factors := factors + [Factor(CriticalCostFlags(criticalFlags), -12 * (criticalFlags as int))];
    }
    if highFlags > 0 {
      score := score - 5 * (highFlags as int);
      factors := factors + [Factor(HighCostFlags(highFlags), -5 * (highFlags as int))];
    }
  }

  /** The order-quantity rule. */
  method ApplyOrderRule(score0: int, factors0: seq<Factor>, orderQuantity: int)
    returns (score: int, factors: seq<Factor>)
    ensures factors == factors0 + OrderFactors(orderQuantity)
    ensures score == score0 + OrderImpact(orderQuantity)
  {
    score, factors := score0, factors0;
    if orderQuantity < ORDER_SMALL {
      score := score - 15;
      factors := factors + [Factor(VerySmallOrder, -15)];
    } else if orderQuantity < ORDER_MEDIUM {
      score := score - 8;
      factors := factors + [Factor(SmallOrder, -8)];
    } else if orderQuantity >= ORDER_LARGE {
      score := score + 5;
      factors := factors + [Factor(LargeOrderBonus, 5)];
    }
  }

  /** The price-gap rule. */
  method ApplyGapRule(score0: int, factors0: seq<Factor>, priceGapPercent: real)
    returns (score: int, factors: seq<Factor>)
    ensures factors == factors0 + GapFactors(priceGapPercent)
    ensures score == score0 + GapImpact(priceGapPercent)
  {
    score, factors := score0, factors0;
    if priceGapPercent < -10.0 {
      score := score - 15;
      factors := factors + [Factor(TargetFarBelowQuote, -15)];
    } else if priceGapPercent < -5.0 {
      score := score - 8;
      factors := factors + [Factor(TargetBelowQuote, -8)];
    } else if priceGapPercent > 5.0 {
      score := score + 5;
      factors := factors + [Factor(FavorablePriceGap, 5)];
    }
  }

  /** The status and recommendation for a clamped score. */
  method Classify(score: int) returns (status: FeasibilityStatus, recommendation: Recommendation)
    ensures status == StatusOf(score) && recommendation == RecommendationOf(status)
  {
    status := Red;
    recommendation := Reject;
    if score >= 75 {
      status := Green;
      recommendation := Accept;
    } else if score >= 50 {
      status := Amber;
      recommendation := Renegotiate;
    }
  }

  /**
   * `calculateFeasibilityScore`: starts at 100, applies each rule's impact
   * in turn, clamps to [0, 100] and maps the score to a status and a
   * recommendation. The cost driver it is passed is not used.
   */
  method CalculateFeasibilityScore(marginPercent: real, orderQuantity: int, flaggedCosts: seq<FlaggedCost>,
                                   priceGapPercent: real)
    returns (result: Feasibility)
    ensures result.factors == Factors(marginPercent, orderQuantity, CountStatus(flaggedCosts, CriticalStatus),
                                      CountStatus(flaggedCosts, HighStatus), priceGapPercent)
    ensures result.score == Clamp(100 + ImpactSum(result.factors))
    ensures result.status == StatusOf(result.score)
    ensures result.recommendation == RecommendationOf(result.status)
    ensures result == FeasibilityOf(marginPercent, orderQuantity, flaggedCosts, priceGapPercent)
  {
    var criticalFlags := CountStatus(flaggedCosts, CriticalStatus);
    var highFlags := CountStatus(flaggedCosts, HighStatus);
    ghost var expected := Factors(marginPercent, orderQuantity, criticalFlags, highFlags, priceGapPercent);
    var score: int := 100;
    var factors: seq<Factor> := [];
    score, factors := ApplyMarginRule(score, factors, marginPercent);
    assert factors == MarginFactors(marginPercent);
    score, factors := ApplyFlagRules(score, factors, criticalFlags, highFlags);
    score, factors := ApplyOrderRule(score, factors, orderQuantity);
    score, factors := ApplyGapRule(score, factors, priceGapPercent);
    assert factors == expected;
    UnclampedScore(marginPercent, orderQuantity, criticalFlags, highFlags, priceGapPercent);
    assert score == 100 + ImpactSum(expected);

    score := if 100 < score then 100 else score;
    score := if 0 > score then 0 else score;
    assert score == Clamp(100 + ImpactSum(expected));

    var status, recommendation := Classify(score);
    result := Feasibility(score, status, recommendation, factors);
  }

  lemma ImpactSumSnoc(fs: seq<Factor>, f: Factor)
    ensures ImpactSum(fs + [f]) == ImpactSum(fs) + f.impact
  {
    assert (fs + [f])[..|fs + [f]| - 1] == fs;
  }

  // ---------------------------------------------------------------------------
  // The whole analysis
  // ---------------------------------------------------------------------------

  /** The object `calculateMarginAnalysis` returns (currency, incoterm and the timestamp left out). */
  datatype Analysis = Analysis(
    buyerTargetFob: real, quotedFob: real, orderQuantity: int, targetProfitPercent: real,
    totalCost: real,
    costBreakdown: seq<Line>,
    topCostContributors: seq<Line>,
    costDriver: CostDriver,
    flaggedCosts: seq<FlaggedCost>,
    grossMargin: real, marginPercent: real, breakEvenFob: real,
    targetFobWithProfit: real, targetVariance: real, isViable: bool,
    priceGap: real, priceGapPercent: real,
    orderSizeCategory: OrderSize, orderEfficiency: OrderEfficiency,
    totalOrderValue: real, totalCostValue: real, totalProfit: real,
    feasibilityScore: Feasibility)

  /** The `forEach` that adds up the enabled cost lines. */
  method SumEnabledCosts(inputs: AnalyzerInputs) returns (totalCost: real)
    ensures totalCost == TotalCost(inputs)
  {
    totalCost := 0.0;
    for i := 0 to |CostKeys|
      invariant totalCost == SumEnabled(inputs, CostKeys[..i])
    {
      assert CostKeys[..i + 1][..i] == CostKeys[..i];
      if Enabled(inputs.costToggles, CostKeys[i]) {
        totalCost := totalCost + CostValue(inputs, CostKeys[i]);
      }
    }
    assert CostKeys[..|CostKeys|] == CostKeys;
  }

  /** The `forEach` that fills `costBreakdown`: every line, enabled or not, with its share and grade. */
  method FillBreakdown(inputs: AnalyzerInputs) returns (costBreakdown: seq<Line>)
    ensures costBreakdown == Breakdown(inputs)
  {
    var buyerTarget := BuyerTarget(inputs);
    costBreakdown := [];
    for i := 0 to |CostKeys|
      invariant |costBreakdown| == i
      invariant forall j :: 0 <= j < i ==> costBreakdown[j] == LineFor(inputs, CostKeys[j])
    {
      var line := GradeLine(inputs, buyerTarget, CostKeys[i]);
      costBreakdown := costBreakdown + [line];
    }
  }

  /** One step of that `forEach`: the line's share of the target and the first band it reaches. */
  method GradeLine(inputs: AnalyzerInputs, buyerTarget: real, k: CostKey) returns (line: Line)
    requires buyerTarget == BuyerTarget(inputs)
    ensures line == LineFor(inputs, k)
  {
    var value := CostValue(inputs, k);
    var percent := if buyerTarget > 0.0 then (value / buyerTarget) * 100.0 else 0.0;
    var threshold := ThresholdFor(k);
    var status := Normal;
    if percent >= threshold.critical {
      status := CriticalStatus;
    } else if percent >= threshold.high {
      status := HighStatus;
    } else if percent >= threshold.typical {
      status := TypicalStatus;
    } else if percent >= threshold.low {
      status := LowStatus;
    }
    line := Line(k, value, Enabled(inputs.costToggles, k), RoundTo2(percent), status, threshold);
  }

  /** The order-size chain: Bulk from 10000, Large from 5000, Medium from 2000, else Small. */
  method ClassifyOrder(qty: int) returns (size: OrderSize, efficiency: OrderEfficiency)
    ensures size == OrderSizeOf(qty) && efficiency == EfficiencyOf(size)
  {
    size, efficiency := Small, LowEfficiency;
    if qty >= ORDER_BULK {
      size, efficiency := Bulk, MaximumEfficiency;
    } else if qty >= ORDER_LARGE {
      size, efficiency := Large, HighEfficiency;
    } else if qty >= ORDER_MEDIUM {
      size, efficiency := Medium, StandardEfficiency;
    }
  }

  /**
   * `calculateMarginAnalysis`: accumulates the enabled total, fills the
   * breakdown line by line, then derives the ranking, flags, margin and
   * price-gap figures, order size and feasibility.
   */
  method CalculateMarginAnalysis(inputs: AnalyzerInputs) returns (r: Analysis)
    ensures r.buyerTargetFob == BuyerTarget(inputs) && r.quotedFob == Quoted(inputs)
    ensures r.orderQuantity == Quantity(inputs) && r.targetProfitPercent == TargetProfit(inputs)
    ensures r.totalCost == RoundTo2(TotalCost(inputs))
    ensures r.costBreakdown == Breakdown(inputs)
    ensures r.topCostContributors == TopContributors(RankedCosts(inputs))
    ensures r.costDriver == CostDriverOf(RankedCosts(inputs))
    ensures r.flaggedCosts == Flagged(Breakdown(inputs))
    ensures r.marginPercent == RoundTo2(MarginPercent(BuyerTarget(inputs), TotalCost(inputs)))
    ensures r.grossMargin == RoundTo2(GrossMargin(BuyerTarget(inputs), TotalCost(inputs)))
    ensures r.breakEvenFob == r.totalCost
    ensures r.targetFobWithProfit == RoundTo2(TargetFobWithProfit(TotalCost(inputs), TargetProfit(inputs)))
    ensures r.targetVariance == RoundTo2(TargetVariance(BuyerTarget(inputs), TargetFobWithProfit(TotalCost(inputs), TargetProfit(inputs))))
    ensures r.isViable <==> BuyerTarget(inputs) >= TargetFobWithProfit(TotalCost(inputs), TargetProfit(inputs))
    ensures r.priceGap == RoundTo2(PriceGap(BuyerTarget(inputs), Quoted(inputs)))
    ensures r.priceGapPercent == RoundTo2(PriceGapPercent(BuyerTarget(inputs), Quoted(inputs)))
    ensures r.orderSizeCategory == OrderSizeOf(Quantity(inputs))
    ensures r.orderEfficiency == EfficiencyOf(r.orderSizeCategory)
    ensures r.totalOrderValue == RoundTo2(OrderValue(BuyerTarget(inputs), Quantity(inputs)))
    ensures r.totalCostValue == RoundTo2(OrderValue(TotalCost(inputs), Quantity(inputs)))
    ensures r.totalProfit == RoundTo2(OrderValue(GrossMargin(BuyerTarget(inputs), TotalCost(inputs)), Quantity(inputs)))
    ensures r.feasibilityScore == FeasibilityOf(MarginPercent(BuyerTarget(inputs), TotalCost(inputs)), Quantity(inputs),
                                                r.flaggedCosts, PriceGapPercent(BuyerTarget(inputs), Quoted(inputs)))
  {
    var totalCost := SumEnabledCosts(inputs);

    var buyerTarget := BuyerTarget(inputs);
    var quoted := Quoted(inputs);
    var qty := Quantity(inputs);
    var targetProfit := TargetProfit(inputs);

    var grossMargin, marginPercent, targetFobWithProfit, targetVariance, isViable,
        priceGap, priceGapPercent, totalOrderValue, totalCostValue, totalProfit :=
      MarginFigures(buyerTarget, quoted, qty, targetProfit, totalCost);

    var costBreakdown, topCostContributors, costDriver, flaggedCosts := AnalyzeCostDominance(inputs);

    var feasibility := CalculateFeasibilityScore(marginPercent, qty, flaggedCosts, priceGapPercent);
    var orderSizeCategory, orderEfficiency := ClassifyOrder(qty);

    r := Analysis(
      buyerTarget, quoted, qty, targetProfit,
      RoundTo2(totalCost), costBreakdown, topCostContributors, costDriver, flaggedCosts,
      RoundTo2(grossMargin), RoundTo2(marginPercent), RoundTo2(totalCost),
      RoundTo2(targetFobWithProfit), RoundTo2(targetVariance), isViable,
      RoundTo2(priceGap), RoundTo2(priceGapPercent),
      orderSizeCategory, orderEfficiency,
      RoundTo2(totalOrderValue), RoundTo2(totalCostValue), RoundTo2(totalProfit),
      feasibility);
  }

  /**
   * The margin, price-gap and order-value figures of `calculateMarginAnalysis`,
   * before rounding, from the per-piece target, quote and total cost.
   */
  method MarginFigures(buyerTarget: real, quoted: real, qty: int, targetProfit: real, totalCost: real)
    returns (grossMargin: real, marginPercent: real, targetFobWithProfit: real, targetVariance: real, isViable: bool,
             priceGap: real, priceGapPercent: real, totalOrderValue: real, totalCostValue: real, totalProfit: real)
    ensures grossMargin == GrossMargin(buyerTarget, totalCost)
    ensures marginPercent == MarginPercent(buyerTarget, totalCost)
    ensures targetFobWithProfit == TargetFobWithProfit(totalCost, targetProfit)
    ensures targetVariance == TargetVariance(buyerTarget, targetFobWithProfit)
    ensures isViable <==> buyerTarget >= targetFobWithProfit
    ensures priceGap == PriceGap(buyerTarget, quoted)
    ensures priceGapPercent == PriceGapPercent(buyerTarget, quoted)
    ensures totalOrderValue == OrderValue(buyerTarget, qty)
    ensures totalCostValue == OrderValue(totalCost, qty)
    ensures totalProfit == OrderValue(GrossMargin(buyerTarget, totalCost), qty)
    ensures totalOrderValue - totalCostValue == totalProfit
  {
    grossMargin := GrossMargin(buyerTarget, totalCost);
    marginPercent := MarginPercent(buyerTarget, totalCost);
    priceGap := PriceGap(buyerTarget, quoted);
    priceGapPercent := PriceGapPercent(buyerTarget, quoted);
    targetFobWithProfit := TargetFobWithProfit(totalCost, targetProfit);
    targetVariance := TargetVariance(buyerTarget, targetFobWithProfit);
    isViable := targetVariance >= 0.0;
    totalOrderValue := OrderValue(buyerTarget, qty);
    totalCostValue := OrderValue(totalCost, qty);
    totalProfit := OrderValue(grossMargin, qty);
    OrderValueSplits(buyerTarget, totalCost, qty);
  }

  /** The cost-dominance section: the breakdown, its ranking, the top three, the driver and the flags. */
  method AnalyzeCostDominance(inputs: AnalyzerInputs)
    returns (costBreakdown: seq<Line>, topCostContributors: seq<Line>, costDriver: CostDriver, flaggedCosts: seq<FlaggedCost>)
    ensures costBreakdown == Breakdown(inputs)
    ensures topCostContributors == TopContributors(RankedCosts(inputs))
    ensures costDriver == CostDriverOf(RankedCosts(inputs))
    ensures flaggedCosts == Flagged(Breakdown(inputs))
  {
    costBreakdown := FillBreakdown(inputs);
    var sortedCosts := SortByPercent(Contributors(costBreakdown));
    topCostContributors := TopContributors(sortedCosts);
    costDriver := CostDriverOf(sortedCosts);
    flaggedCosts := Flagged(costBreakdown);
  }

  // ---------------------------------------------------------------------------
  // Properties: total cost
  // ---------------------------------------------------------------------------

  lemma {:induction false} SumEnabledAppend(inputs: AnalyzerInputs, a: seq<CostKey>, b: seq<CostKey>)
    ensures SumEnabled(inputs, a + b) == SumEnabled(inputs, a) + SumEnabled(inputs, b)
  {
    if b != [] {
      assert (a + b)[..|a + b| - 1] == a + b[..|b| - 1];
      SumEnabledAppend(inputs, a, b[..|b| - 1]);
    } else {
      assert a + b == a;
    }
  }

  /** Summing over the keys one at a time adds each enabled value once. */
  lemma TotalCostExpanded(inputs: AnalyzerInputs)
    ensures TotalCost(inputs) ==
      Contribution(inputs, Fabric) + Contribution(inputs, Trims) + Contribution(inputs, Packaging)
      + Contribution(inputs, Cm) + Contribution(inputs, Washing) + Contribution(inputs, Testing)
      + Contribution(inputs, Logistics) + Contribution(inputs, Overhead)
  {
    SumOfEight(inputs, CostKeys);
  }

  /** Any eight keys sum to their eight contributions. */
  lemma SumOfEight(inputs: AnalyzerInputs, ks: seq<CostKey>)
    requires |ks| == 8
    ensures SumEnabled(inputs, ks) ==
      Contribution(inputs, ks[0]) + Contribution(inputs, ks[1]) + Contribution(inputs, ks[2])
      + Contribution(inputs, ks[3]) + Contribution(inputs, ks[4]) + Contribution(inputs, ks[5])
      + Contribution(inputs, ks[6]) + Contribution(inputs, ks[7])
  {
    SumOfFirstFour(inputs, ks);
    SumOfLastFour(inputs, ks);
  }

  lemma SumOfFirstFour(inputs: AnalyzerInputs, ks: seq<CostKey>)
    requires |ks| >= 4
    ensures SumEnabled(inputs, ks[..4]) ==
      Contribution(inputs, ks[0]) + Contribution(inputs, ks[1]) + Contribution(inputs, ks[2]) + Contribution(inputs, ks[3])
  {
    assert ks[..0] == [];
    SumEnabledStep(inputs, ks, 0);
    SumEnabledStep(inputs, ks, 1);
    SumEnabledStep(inputs, ks, 2);
    SumEnabledStep(inputs, ks, 3);
  }

  lemma SumOfLastFour(inputs: AnalyzerInputs, ks: seq<CostKey>)
    requires |ks| == 8
    ensures SumEnabled(inputs, ks) == SumEnabled(inputs, ks[..4])
      + Contribution(inputs, ks[4]) + Contribution(inputs, ks[5]) + Contribution(inputs, ks[6]) + Contribution(inputs, ks[7])
  {
    SumEnabledStep(inputs, ks, 4);
    SumEnabledStep(inputs, ks, 5);
    SumEnabledStep(inputs, ks, 6);
    SumEnabledStep(inputs, ks, 7);
    assert ks[..8] == ks;
  }

  lemma SumEnabledStep(inputs: AnalyzerInputs, ks: seq<CostKey>, i: nat)
    requires i < |ks|
    ensures SumEnabled(inputs, ks[..i + 1]) == SumEnabled(inputs, ks[..i]) + Contribution(inputs, ks[i])
  {
    assert ks[..i + 1][..i] == ks[..i];
  }

  /** With no toggles at all, every line is enabled and the total is the sum of all eight values. */
  lemma NoTogglesEnablesAll(inputs: AnalyzerInputs)
    requires inputs.costToggles == map[]
    ensures forall k: CostKey :: Enabled(inputs.costToggles, k)
    ensures TotalCost(inputs) ==
      CostValue(inputs, Fabric) + CostValue(inputs, Trims) + CostValue(inputs, Packaging)
      + CostValue(inputs, Cm) + CostValue(inputs, Washing) + CostValue(inputs, Testing)
      + CostValue(inputs, Logistics) + CostValue(inputs, Overhead)
  {
    TotalCostExpanded(inputs);
  }

  /** Switching a line off removes exactly its contribution from the total. */
  lemma DisablingRemovesLine(inputs: AnalyzerInputs, k: CostKey)
    ensures TotalCost(inputs.(costToggles := inputs.costToggles[k := false]))
         == TotalCost(inputs) - Contribution(inputs, k)
  {
    var off := inputs.(costToggles := inputs.costToggles[k := false]);
    TotalCostExpanded(inputs);
    TotalCostExpanded(off);
    DisabledContribution(inputs, k, Fabric);
    DisabledContribution(inputs, k, Trims);
    DisabledContribution(inputs, k, Packaging);
    DisabledContribution(inputs, k, Cm);
    DisabledContribution(inputs, k, Washing);
    DisabledContribution(inputs, k, Testing);
    DisabledContribution(inputs, k, Logistics);
    DisabledContribution(inputs, k, Overhead);
  }

  lemma DisabledContribution(inputs: AnalyzerInputs, k: CostKey, j: CostKey)
    ensures Contribution(inputs.(costToggles := inputs.costToggles[k := false]), j)
         == if j == k then 0.0 else Contribution(inputs, j)
  {
  }

  // ---------------------------------------------------------------------------
  // Properties: margin, viability and price gap
  // ---------------------------------------------------------------------------

  /** With a positive target, the margin is non-negative exactly when the cost is at most the target (break-even). */
  lemma MarginSignIsBreakEven(target: real, total: real)
    requires target > 0.0
    ensures MarginPercent(target, total) >= 0.0 <==> total <= target
  {
    var q := (target - total) / target;
    assert q * target == target - total;
    if q >= 0.0 {
      assert q * target >= 0.0;
    } else {
      assert q * target < 0.0;
    }
  }

  /** No target gives a zero margin and a zero share for every line. */
  lemma NoTargetMeansZeroPercents(inputs: AnalyzerInputs)
    requires BuyerTarget(inputs) <= 0.0
    ensures MarginPercent(BuyerTarget(inputs), TotalCost(inputs)) == 0.0
    ensures forall i :: 0 <= i < |CostKeys| ==> Breakdown(inputs)[i].percent == 0.0
  {
    forall i | 0 <= i < |CostKeys| ensures Breakdown(inputs)[i].percent == 0.0 {
      assert RoundTo2(0.0) == 0.0;
    }
  }

  /**
   * Viability is reaching the target profit: with a positive target and a
   * profit above -100%, the order is viable exactly when the margin is at
   * least 100p / (100 + p).
   */
  lemma ViableIffMarginCoversProfit(target: real, total: real, profit: real)
    requires target > 0.0 && profit > -100.0
    ensures target >= TargetFobWithProfit(total, profit)
        <==> MarginPercent(target, total) >= 100.0 * profit / (100.0 + profit)
  {
    var m := MarginPercent(target, total);
    var k := 100.0 + profit;
    assert k > 0.0;
    assert m == 100.0 * (target - total) / target;
    assert TargetFobWithProfit(total, profit) == total * k / 100.0;
    // Both sides are equivalent to total * k <= 100 * target.
    assert target >= total * k / 100.0 <==> total * k <= 100.0 * target;
    assert m >= 100.0 * profit / k <==> m * k >= 100.0 * profit;
    assert m * k * target == 100.0 * (target - total) * k;
    assert m * k >= 100.0 * profit <==> m * k * target >= 100.0 * profit * target;
  }

  /** A zero target profit makes viability plain break-even. */
  lemma ZeroProfitViabilityIsBreakEven(target: real, total: real)
    ensures target >= TargetFobWithProfit(total, 0.0) <==> total <= target
  {
  }

  /** With a quote, the gap is positive exactly when the buyer's target is above the quote. */
  lemma PriceGapSign(target: real, quoted: real)
    requires quoted > 0.0
    ensures PriceGapPercent(target, quoted) > 0.0 <==> target > quoted
    ensures PriceGapPercent(target, quoted) == 0.0 <==> target == quoted
  {
    var g := (target - quoted) / quoted;
    assert g * quoted == target - quoted;
  }

  /** Without a quote the price-gap percentage is 0, so it never moves the feasibility score. */
  lemma NoQuoteNoGapFactor(target: real, quoted: real)
    requires quoted <= 0.0
    ensures PriceGapPercent(target, quoted) == 0.0
    ensures GapFactors(PriceGapPercent(target, quoted)) == []
  {
  }

  // ---------------------------------------------------------------------------
  // Properties: grading and flags
  // ---------------------------------------------------------------------------

  /** Every line, enabled or not, is graded on its share of the target; its toggle plays no part. */
  lemma GradingIgnoresToggles(inputs: AnalyzerInputs, toggles: map<CostKey, bool>, k: CostKey)
    ensures var a := LineFor(inputs, k);
            var b := LineFor(inputs.(costToggles := toggles), k);
            a.percent == b.percent && a.status == b.status
  {
  }

  lemma {:induction false} FlaggedMembers(s: seq<Line>, f: FlaggedCost)
    ensures f in Flagged(s) <==> f.line in s && IsFlagged(f.line) && f == FlagOf(f.line)
  {
    if s != [] {
      FlaggedMembers(s[..|s| - 1], f);
      assert s == s[..|s| - 1] + [s[|s| - 1]];
    }
  }

  /**
   * The flagged costs are exactly the high and critical breakdown lines,
   * each with the critical warning exactly when it is critical.
   */
  lemma FlaggedAreHighOrCritical(inputs: AnalyzerInputs, f: FlaggedCost)
    ensures f in Flagged(Breakdown(inputs)) <==>
      f.line in Breakdown(inputs) && (f.line.status == HighStatus || f.line.status == CriticalStatus)
      && f.warning == (if f.line.status == CriticalStatus then CriticallyHigh else ExceedsTypical)
  {
    FlaggedMembers(Breakdown(inputs), f);
  }

  /** A disabled line that reaches its critical band is still flagged. */
  lemma DisabledLinesStillFlagged(inputs: AnalyzerInputs, k: CostKey)
    requires !Enabled(inputs.costToggles, k)
    requires PercentOfTarget(CostValue(inputs, k), BuyerTarget(inputs)) >= ThresholdFor(k).critical
    ensures FlaggedCost(LineFor(inputs, k), CriticallyHigh) in Flagged(Breakdown(inputs))
    ensures LineFor(inputs, k) !in Contributors(Breakdown(inputs))
  {
    var b := Breakdown(inputs);
    assert b[KeyIndex(k)] == LineFor(inputs, k);
    FlaggedMembers(b, FlaggedCost(LineFor(inputs, k), CriticallyHigh));
  }

  // ---------------------------------------------------------------------------
  // Properties: ranking and cost driver
  // ---------------------------------------------------------------------------

  lemma BreakdownInKeyOrder(inputs: AnalyzerInputs)
    ensures InKeyOrder(Breakdown(inputs))
  {
    var b := Breakdown(inputs);
    forall i, j | 0 <= i < j < |b| ensures KeyIndex(b[i].key) < KeyIndex(b[j].key) {
      KeyIndexAt(i);
      KeyIndexAt(j);
    }
  }

  /** The position of a key in `CostKeys` is its index. */
  lemma KeyIndexAt(i: nat)
    requires i < |CostKeys|
    ensures KeyIndex(CostKeys[i]) == i
  {
    if i == 0 {} else if i == 1 {} else if i == 2 {} else if i == 3 {}
    else if i == 4 {} else if i == 5 {} else if i == 6 {} else {}
  }

  lemma {:induction false} ContributorsInKeyOrder(s: seq<Line>)
    requires InKeyOrder(s)
    ensures InKeyOrder(Contributors(s))
  {
    if s != [] {
      var init := s[..|s| - 1];
      assert InKeyOrder(init);
      ContributorsInKeyOrder(init);
      var c := Contributors(init);
      forall i | 0 <= i < |c| ensures KeyIndex(c[i].key) < KeyIndex(s[|s| - 1].key) {
        assert c[i] in init;
      }
    }
  }

  lemma {:induction false} InsertRanked(x: Line, s: seq<Line>)
    requires Ranked(s)
    requires forall i :: 0 <= i < |s| ==> KeyIndex(s[i].key) < KeyIndex(x.key)
    ensures Ranked(Insert(x, s))
  {
    if s != [] && s[0].percent >= x.percent {
      var rest := s[1..];
      assert Ranked(rest);
      InsertRanked(x, rest);
      var r := Insert(x, rest);
      forall j | 0 <= j < |r| ensures Before(s[0], r[j]) {
        assert r[j] in multiset(r);
        if r[j] == x {
        } else {
          assert r[j] in multiset(rest);
          var m :| 0 <= m < |rest| && rest[m] == r[j];
          assert rest[m] == s[m + 1];
        }
      }
    }
  }

  lemma {:induction false} SortRanked(s: seq<Line>)
    requires InKeyOrder(s)
    ensures Ranked(SortByPercent(s))
  {
    if s != [] {
      var init := s[..|s| - 1];
      var x := s[|s| - 1];
      assert InKeyOrder(init);
      SortRanked(init);
      var sorted := SortByPercent(init);
      forall i | 0 <= i < |sorted| ensures KeyIndex(sorted[i].key) < KeyIndex(x.key) {
        assert sorted[i] in multiset(sorted);
        assert sorted[i] in multiset(init);
      }
      InsertRanked(x, sorted);
    }
  }

  /**
   * The ranked costs are a permutation of the enabled, positive lines, in
   * descending rounded percent with ties in key order (a stable sort of
   * the key-ordered breakdown).
   */
  lemma RankedCostsAreSortedContributors(inputs: AnalyzerInputs)
    ensures Ranked(RankedCosts(inputs))
    ensures multiset(RankedCosts(inputs)) == multiset(Contributors(Breakdown(inputs)))
    ensures forall l :: l in RankedCosts(inputs) <==> l in Breakdown(inputs) && Contributes(l)
  {
    BreakdownInKeyOrder(inputs);
    ContributorsInKeyOrder(Breakdown(inputs));
    SortRanked(Contributors(Breakdown(inputs)));
    forall l ensures l in RankedCosts(inputs) <==> l in Contributors(Breakdown(inputs)) {
      assert l in RankedCosts(inputs) <==> l in multiset(RankedCosts(inputs));
    }
  }

  /**
   * At most three top contributors, all enabled with a positive value, in
   * ranking order, and every enabled positive line left out ranks after each of them.
   */
  lemma TopContributorsAreTheLargest(inputs: AnalyzerInputs)
    ensures var top := TopContributors(RankedCosts(inputs));
      && |top| <= 3
      && Ranked(top)
      && (forall l :: l in top ==> l in Breakdown(inputs) && Contributes(l))
      && (forall l, t :: l in Breakdown(inputs) && Contributes(l) && l !in top && t in top ==> Before(t, l))
  {
    RankedCostsAreSortedContributors(inputs);
    var ranked := RankedCosts(inputs);
    var top := TopContributors(ranked);
    forall l, t | l in Breakdown(inputs) && Contributes(l) && l !in top && t in top
      ensures Before(t, l)
    {
      assert l in ranked;
      var i :| 0 <= i < |ranked| && ranked[i] == l;
      var j :| 0 <= j < |top| && top[j] == t;
      assert ranked[j] == t;
      assert i >= |top|;
    }
  }

  /**
   * The driver is read off the top-ranked line alone: Fabric-Driven,
   * Labor-Driven or Processing-Driven means that that line is enabled,
   * positive, above its cut-off, and ranked at or above every other
   * contributor; no contributors means Balanced.
   */
  lemma CostDriverFromTopLine(inputs: AnalyzerInputs)
    ensures var ranked := RankedCosts(inputs);
            var d := CostDriverOf(ranked);
      && (ranked == [] ==> d == Balanced)
      && (d != Balanced ==>
            var k := match d case FabricDriven => Fabric case LaborDriven => Cm case _ => Washing;
            var cut := match d case FabricDriven => 50.0 case LaborDriven => 28.0 case _ => 12.0;
            ranked != [] && ranked[0] == LineFor(inputs, k) && Contributes(ranked[0]) && ranked[0].percent > cut
            && forall l :: l in Breakdown(inputs) && Contributes(l) ==> l.percent <= ranked[0].percent)
  {
    RankedCostsAreSortedContributors(inputs);
    var ranked := RankedCosts(inputs);
    DriverOfRanked(ranked, Breakdown(inputs));
    if ranked != [] {
      BreakdownLineIsLineFor(inputs, ranked[0]);
    }
  }

  /** The driver of any ranking of contributors names its head line and the cut that line passes. */
  lemma DriverOfRanked(ranked: seq<Line>, b: seq<Line>)
    requires Ranked(ranked)
    requires forall l :: l in ranked <==> l in b && Contributes(l)
    ensures var d := CostDriverOf(ranked);
      && (ranked == [] ==> d == Balanced)
      && (d != Balanced ==>
            var k := match d case FabricDriven => Fabric case LaborDriven => Cm case _ => Washing;
            var cut := match d case FabricDriven => 50.0 case LaborDriven => 28.0 case _ => 12.0;
            ranked != [] && ranked[0].key == k && ranked[0] in b && Contributes(ranked[0]) && ranked[0].percent > cut
            && forall l :: l in b && Contributes(l) ==> l.percent <= ranked[0].percent)
  {
    if ranked != [] {
      TopOfRanked(ranked, b);
    }
  }

  /** The head of a ranking of the contributors of `b` has the largest percentage among them. */
  lemma TopOfRanked(ranked: seq<Line>, b: seq<Line>)
    requires ranked != [] && Ranked(ranked)
    requires forall l :: l in ranked <==> l in b && Contributes(l)
    ensures ranked[0] in b && Contributes(ranked[0])
    ensures forall l :: l in b && Contributes(l) ==> l.percent <= ranked[0].percent
  {
    assert ranked[0] in ranked;
    forall l | l in b && Contributes(l) ensures l.percent <= ranked[0].percent {
      var j :| 0 <= j < |ranked| && ranked[j] == l;
      if j > 0 {
        assert Before(ranked[0], ranked[j]);
      }
    }
  }

  /** Every line of the breakdown is the line computed for its own key. */
  lemma BreakdownLineIsLineFor(inputs: AnalyzerInputs, l: Line)
    requires l in Breakdown(inputs)
    ensures l == LineFor(inputs, l.key)
  {
    var b := Breakdown(inputs);
    var i :| 0 <= i < |b| && b[i] == l;
    assert l == LineFor(inputs, CostKeys[i]);
  }

  // ---------------------------------------------------------------------------
  // Properties: order size and feasibility
  // ---------------------------------------------------------------------------

  /** A larger order never falls into a smaller size category. */
  lemma OrderSizeMonotone(q1: int, q2: int)
    requires q1 <= q2
    ensures SizeRank(OrderSizeOf(q1)) <= SizeRank(OrderSizeOf(q2))
  {
  }

  /** The large-order bonus of the scorer is given exactly to the Large and Bulk categories. */
  lemma LargeOrderBonusMatchesCategory(qty: int)
    ensures Factor(LargeOrderBonus, 5) in OrderFactors(qty) <==> OrderSizeOf(qty) in {Large, Bulk}
    ensures Factor(VerySmallOrder, -15) in OrderFactors(qty) || Factor(SmallOrder, -8) in OrderFactors(qty)
        <==> OrderSizeOf(qty) == Small
  {
  }

  lemma {:induction false} ImpactSumAppend(a: seq<Factor>, b: seq<Factor>)
    ensures ImpactSum(a + b) == ImpactSum(a) + ImpactSum(b)
  {
    if b != [] {
      assert (a + b)[..|a + b| - 1] == a + b[..|b| - 1];
      ImpactSumAppend(a, b[..|b| - 1]);
    } else {
      assert a + b == a;
    }
  }

  function MarginImpact(m: real): int
  {
    if m < MARGIN_MINIMUM then -40 else if m < MARGIN_LOW then -25
    else if m < MARGIN_HEALTHY then -10 else if m >= MARGIN_STRONG then 5 else 0
  }

  function OrderImpact(q: int): int
  {
    if q < ORDER_SMALL then -15 else if q < ORDER_MEDIUM then -8 else if q >= ORDER_LARGE then 5 else 0
  }

  function GapImpact(g: real): int
  {
    if g < -10.0 then -15 else if g < -5.0 then -8 else if g > 5.0 then 5 else 0
  }

  lemma ImpactSumSingleton(f: Factor)
    ensures ImpactSum([f]) == f.impact
  {
    assert [f][..0] == [];
  }

  lemma FlagImpactSum(critical: nat, high: nat)
    ensures ImpactSum(FlagFactors(critical, high)) == -12 * critical - 5 * high
  {
    var b1: seq<Factor> := if critical > 0 then [Factor(CriticalCostFlags(critical), -12 * (critical as int))] else [];
    var b2: seq<Factor> := if high > 0 then [Factor(HighCostFlags(high), -5 * (high as int))] else [];
    assert FlagFactors(critical, high) == b1 + b2;
    ImpactSumAppend(b1, b2);
    if critical > 0 {
      ImpactSumSingleton(Factor(CriticalCostFlags(critical), -12 * (critical as int)));
    }
    if high > 0 {
      ImpactSumSingleton(Factor(HighCostFlags(high), -5 * (high as int)));
    }
  }

  lemma RuleImpactSums(m: real, q: int, g: real)
    ensures ImpactSum(MarginFactors(m)) == MarginImpact(m)
    ensures ImpactSum(OrderFactors(q)) == OrderImpact(q)
    ensures ImpactSum(GapFactors(g)) == GapImpact(g)
  {
    if MarginFactors(m) != [] {
      ImpactSumSingleton(MarginFactors(m)[0]);
      assert MarginFactors(m) == [MarginFactors(m)[0]];
    }
    if OrderFactors(q) != [] {
      ImpactSumSingleton(OrderFactors(q)[0]);
      assert OrderFactors(q) == [OrderFactors(q)[0]];
    }
    if GapFactors(g) != [] {
      ImpactSumSingleton(GapFactors(g)[0]);
      assert GapFactors(g) == [GapFactors(g)[0]];
    }
  }

  /** The unclamped score is 100 plus the impacts of the margin, flag, order and gap rules. */
  lemma UnclampedScore(m: real, q: int, critical: nat, high: nat, g: real)
    ensures 100 + ImpactSum(Factors(m, q, critical, high, g))
         == 100 + MarginImpact(m) - 12 * critical - 5 * high + OrderImpact(q) + GapImpact(g)
  {
    var a := MarginFactors(m);
    var b := FlagFactors(critical, high);
    var c := OrderFactors(q);
    var d := GapFactors(g);
    assert Factors(m, q, critical, high, g) == a + b + c + d;
    ImpactSumAppend(a + b + c, d);
    ImpactSumAppend(a + b, c);
    ImpactSumAppend(a, b);
    FlagImpactSum(critical, high);
    RuleImpactSums(m, q, g);
  }

  /** The feasibility status bands: Green from 75, Amber from 50, Red below, with the paired recommendation. */
  lemma StatusBands(score: int)
    ensures StatusOf(score) == Green <==> score >= 75
    ensures StatusOf(score) == Amber <==> 50 <= score < 75
    ensures StatusOf(score) == Red <==> score < 50
    ensures RecommendationOf(StatusOf(score)) == Accept <==> score >= 75
    ensures RecommendationOf(StatusOf(score)) == Reject <==> score < 50
  {
  }

  function Score(m: real, q: int, critical: nat, high: nat, g: real): int
  {
    Clamp(100 + ImpactSum(Factors(m, q, critical, high, g)))
  }

  /**
   * A better margin, a larger order, a better price gap and fewer flags
   * never lower the feasibility score.
   */
  lemma ScoreMonotone(m1: real, m2: real, q1: int, q2: int, c1: nat, c2: nat, h1: nat, h2: nat, g1: real, g2: real)
    requires m1 <= m2 && q1 <= q2 && c1 >= c2 && h1 >= h2 && g1 <= g2
    ensures Score(m1, q1, c1, h1, g1) <= Score(m2, q2, c2, h2, g2)
  {
    ScoreFormula(m1, q1, c1, h1, g1);
    ScoreFormula(m2, q2, c2, h2, g2);
    ImpactsMonotone(m1, m2, q1, q2, g1, g2);
    var raw1 := 100 + MarginImpact(m1) - 12 * c1 - 5 * h1 + OrderImpact(q1) + GapImpact(g1);
    var raw2 := 100 + MarginImpact(m2) - 12 * c2 - 5 * h2 + OrderImpact(q2) + GapImpact(g2);
    assert raw1 <= raw2;
  }

  /** The score is the clamped sum of the impacts of the margin, the flags, the order size and the price gap. */
  lemma ScoreFormula(m: real, q: int, critical: nat, high: nat, g: real)
    ensures Score(m, q, critical, high, g)
         == Clamp(100 + MarginImpact(m) - 12 * critical - 5 * high + OrderImpact(q) + GapImpact(g))
  {
    UnclampedScore(m, q, critical, high, g);
  }

  lemma ImpactsMonotone(m1: real, m2: real, q1: int, q2: int, g1: real, g2: real)
    requires m1 <= m2 && q1 <= q2 && g1 <= g2
    ensures MarginImpact(m1) <= MarginImpact(m2)
    ensures OrderImpact(q1) <= OrderImpact(q2)
    ensures GapImpact(g1) <= GapImpact(g2)
  {
  }

  /** Margin 8, one critical flag, 300 pieces and no quote score 48, which is Red: reject. */
  lemma WorkedExample()
    ensures Score(8.0, 300, 1, 0, PriceGapPercent(10.0, 0.0)) == 48
    ensures StatusOf(48) == Red && RecommendationOf(StatusOf(48)) == Reject
  {
    UnclampedScore(8.0, 300, 1, 0, 0.0);
  }

  // ---------------------------------------------------------------------------
  // Margin status label and colour
  // ---------------------------------------------------------------------------

  datatype MarginLabel = CriticalMargin | LowMarginLabel | BelowTarget | Healthy | Strong

  function GetMarginStatusLabel(marginPercent: real): (l: MarginLabel)
    ensures l == CriticalMargin <==> marginPercent < MARGIN_MINIMUM
    ensures l == Healthy <==> MARGIN_HEALTHY <= marginPercent < MARGIN_STRONG
    ensures l == Strong <==> marginPercent >= MARGIN_STRONG
  {
    if marginPercent < MARGIN_MINIMUM then CriticalMargin
    else if marginPercent < MARGIN_LOW then LowMarginLabel
    else if marginPercent < MARGIN_HEALTHY then BelowTarget
    else if marginPercent < MARGIN_STRONG then Healthy
    else Strong
  }

  function GetMarginStatusColor(marginPercent: real): (c: string)
    ensures c == "#dc3545" <==> GetMarginStatusLabel(marginPercent) == CriticalMargin
    ensures c == "#20c997" <==> GetMarginStatusLabel(marginPercent) == Strong
  {
    if marginPercent < MARGIN_MINIMUM then "#dc3545"
    else if marginPercent < MARGIN_LOW then "#fd7e14"
    else if marginPercent < MARGIN_HEALTHY then "#ffc107"
    else if marginPercent < MARGIN_STRONG then "#28a745"
    else "#20c997"
  }

  /** The label agrees with the scorer's margin rule: each band carries the matching factor. */
  lemma LabelMatchesMarginFactor(m: real)
    ensures GetMarginStatusLabel(m) == CriticalMargin <==> MarginImpact(m) == -40
    ensures GetMarginStatusLabel(m) == LowMarginLabel <==> MarginImpact(m) == -25
    ensures GetMarginStatusLabel(m) == BelowTarget <==> MarginImpact(m) == -10
    ensures GetMarginStatusLabel(m) == Healthy <==> MarginImpact(m) == 0
    ensures GetMarginStatusLabel(m) == Strong <==> MarginImpact(m) == 5
  {
  }

  /** The colour is a function of the label and tells the five labels apart. */
  lemma ColorFollowsLabel(m1: real, m2: real)
    ensures GetMarginStatusColor(m1) == GetMarginStatusColor(m2) <==> GetMarginStatusLabel(m1) == GetMarginStatusLabel(m2)
  {
    var c1 := GetMarginStatusColor(m1);
    var c2 := GetMarginStatusColor(m2);
    assert c1[1] == c2[1] && c1[2] == c2[2] && c1[3] == c2[3] ==> GetMarginStatusLabel(m1) == GetMarginStatusLabel(m2);
  }
}
