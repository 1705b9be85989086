/**
 * Fabric consumption and marker efficiency (frontend/src/utils/fabricConsumptionCalculator.js).
 *
 * Three formula families turn pattern dimensions, shrinkage, marker
 * efficiency and wastage into fabric per piece: knit (GSM and area, in kg),
 * woven (yardage with a floor-divided count of patterns across the width)
 * and denim (woven plus a fixed 7.2 inch accessory allowance and an oz/kg
 * weight). Each family is computed first without rounding (`Figures`) and
 * then reported with the source's 2- and 4-decimal rounding
 * (`ConsumptionResult`).
 */
module FabricConsumption {
  import opened JsNumber

  /** The parameter object of the calculators. A defaulted field is `None` when the caller leaves it undefined. */
  datatype Params = Params(
    patternLength: real,
    patternWidth: real,
    gsm: real,
    fabricWidth: real,
    fabricWeight: real,
    markerEfficiency: real,
    shrinkageLength: real,
    shrinkageWidth: real,
    wastage: real,
    orderQuantity: real,
    fabricPricePerKg: real,
    fabricPricePerYard: real,
    patternRepeat: Option<real>,
    piecesPerMarker: Option<real>)

  datatype Result<+T> = Ok(value: T) | Err(error: string)

  /** Family-specific unrounded figures. */
  datatype Extra =
    | KnitExtra(patternAreaSqM: real)
    | WovenExtra(repeatAllowance: real, patternsAcross: int)
    | DenimExtra(accessoryAllowance: real, patternsAcross: int,
                 ozPerPiece: real, kgPerPiece: real, totalFabricKg: real)

  /** The unrounded figures every family computes; `markerLength` is in meters for knit, yards otherwise. */
  datatype Figures = Figures(
    adjustedLength: real,
    adjustedWidth: real,
    theoretical: real,
    markerAdjusted: real,
    actual: real,
    perDozen: real,
    markerLength: real,
    totalFabric: real,
    totalFabricMeters: real,
    costPerPiece: real,
    costPerDozen: real,
    totalCost: real,
    utilization: real,
    wastePerPiece: real,
    totalWaste: real,
    extra: Extra)

  /** Family-specific reported fields. */
  datatype Details =
    | KnitDetails(patternAreaSqM: real, markerLengthMeters: real)
    | WovenDetails(patternRepeatAllowance: real, patternsAcrossFabric: int, markerLengthYards: real)
    | DenimDetails(weightOzPerPiece: real, weightKgPerPiece: real, weightKgPerDozen: real,
                   accessoryAllowance: real, patternsAcrossFabric: int, markerLengthYards: real,
                   totalFabricKg: real)

  /** The object a calculator returns (the echoed `inputs` sub-object is not modelled). */
  datatype ConsumptionResult = ConsumptionResult(
    garmentType: string,
    unit: string,
    theoreticalConsumptionPerPiece: real,
    actualConsumptionPerPiece: real,
    consumptionPerDozen: real,
    adjustedPatternLength: real,
    adjustedPatternWidth: real,
    orderQuantity: real,
    totalFabricRequired: real,
    totalFabricMeters: real,
    fabricPrice: real,
    fabricCostPerPiece: real,
    fabricCostPerDozen: real,
    totalFabricCost: real,
    markerEfficiency: real,
    fabricUtilization: real,
    wastePercentage: real,
    wastePerPiece: real,
    totalWaste: real,
    details: Details)

  /** Pockets, waistband and belt loops: 0.2 yards, in inches. */
  const DenimAccessoryAllowance: real := 0.2 * 36.0

  const YardsToMeters: real := 0.9144
  const OzToKg: real := 0.0283495

  // ---------------------------------------------------------------------------
  // Shared steps of the three formula families
  // ---------------------------------------------------------------------------

  /** A dimension with its shrinkage allowance added. */
  function Shrunk(dimension: real, shrinkage: real): real
  {
    dimension * (1.0 + shrinkage / 100.0)
  }

  /** Consumption after dividing by marker efficiency. */
  function MarkerAdjusted(theoretical: real, efficiency: real): real
    requires efficiency != 0.0
  {
    theoretical / (efficiency / 100.0)
  }

  /** Consumption after marker efficiency and then wastage. */
  function ActualConsumption(theoretical: real, efficiency: real, wastage: real): real
    requires efficiency != 0.0
  {
    MarkerAdjusted(theoretical, efficiency) * (1.0 + wastage / 100.0)
  }

  /** Fabric utilization %: efficiency times the share left after wastage. */
  function Utilization(efficiency: real, wastage: real): real
  {
    efficiency * (100.0 - wastage) / 100.0
  }

  /** `Math.max(1, Math.floor(fabricWidth / adjustedWidth))`. */
  function PatternsAcross(fabricWidth: real, adjustedWidth: real): (n: int)
    requires adjustedWidth != 0.0
    ensures n >= 1
  {
    var across := (fabricWidth / adjustedWidth).Floor;
    if across > 1 then across else 1
  }

  function RepeatOrDefault(p: Params): real
  {
    match p.patternRepeat
    case None => 0.0
    case Some(r) => r
  }

  function PiecesPerMarkerOrDefault(p: Params): real
  {
    match p.piecesPerMarker
    case None => 1.0
    case Some(n) => n
  }

  // ---------------------------------------------------------------------------
  // The three families, unrounded
  // ---------------------------------------------------------------------------

  /** The per-dozen, per-order and cost figures are the per-piece ones scaled. */
  predicate Scaled(f: Figures, price: real, quantity: real)
  {
    && f.perDozen == 12.0 * f.actual
    && f.costPerPiece == f.actual * price
    && f.costPerDozen == 12.0 * f.costPerPiece
    && f.totalFabric == f.actual * quantity
    && f.totalCost == f.totalFabric * price
    && f.totalCost == f.costPerPiece * quantity
    && f.wastePerPiece == f.actual - f.theoretical
    && f.totalWaste == f.wastePerPiece * quantity
  }

  /**
   * The figures of one family from its per-piece consumption: per dozen is
   * 12 pieces, cost is consumption times price, the order total is the
   * per-piece figure times the quantity and waste is actual minus theoretical.
   */
  function Assemble(
    adjustedLength: real, adjustedWidth: real, theoretical: real, markerAdjusted: real, actual: real,
    markerLength: real, totalFabricMeters: real, utilization: real,
    price: real, quantity: real, extra: Extra): (f: Figures)
    ensures Scaled(f, price, quantity)
    ensures f.theoretical == theoretical && f.actual == actual && f.extra == extra
  {
    var totalFabric := actual * quantity;
    var costPerPiece := actual * price;
    var wastePerPiece := actual - theoretical;
    assert totalFabric * price == costPerPiece * quantity;
    Figures(
      adjustedLength, adjustedWidth, theoretical, markerAdjusted, actual, 12.0 * actual,
      markerLength, totalFabric, totalFabricMeters,
      costPerPiece, 12.0 * costPerPiece, totalFabric * price,
      utilization, wastePerPiece, wastePerPiece * quantity, extra)
  }

  /** The divisions of the knit formula are by nonzero values. */
  predicate KnitDefined(p: Params)
  {
    p.markerEfficiency != 0.0 && p.gsm * p.fabricWidth != 0.0
  }

  /** The divisions of the woven and denim formulas are by nonzero values. */
  predicate WovenDefined(p: Params)
  {
    p.markerEfficiency != 0.0 && Shrunk(p.patternWidth, p.shrinkageWidth) != 0.0
  }

  function KnitFigures(p: Params): Figures
    requires KnitDefined(p)
  {
    var adjustedLength := Shrunk(p.patternLength, p.shrinkageLength);
    var adjustedWidth := Shrunk(p.patternWidth, p.shrinkageWidth);
    var area := (adjustedLength * adjustedWidth) / 10000.0;
    var theoretical := (area * p.gsm) / 1000.0;
    var actual := ActualConsumption(theoretical, p.markerEfficiency, p.wastage);
    var markerLength := (adjustedLength * PiecesPerMarkerOrDefault(p)) / (p.markerEfficiency / 100.0);
    var fabricWidthMeters := p.fabricWidth / 100.0;
    assert p.gsm * fabricWidthMeters / 1000.0 != 0.0;
    var totalMeters := (actual * p.orderQuantity) / (p.gsm * fabricWidthMeters / 1000.0);
    Assemble(
      adjustedLength, adjustedWidth, theoretical, MarkerAdjusted(theoretical, p.markerEfficiency), actual,
      markerLength / 100.0, totalMeters, Utilization(p.markerEfficiency, p.wastage),
      p.fabricPricePerKg, p.orderQuantity, KnitExtra(area))
  }

  /** Woven yardage; `allowance` is the repeat allowance added to the pattern length. */
  function YardageFigures(p: Params, allowance: real, price: real): Figures
    requires WovenDefined(p)
  {
    var adjustedLength := Shrunk(p.patternLength, p.shrinkageLength);
    var adjustedWidth := Shrunk(p.patternWidth, p.shrinkageWidth);
    var totalPatternLength := adjustedLength + allowance;
    var across := PatternsAcross(p.fabricWidth, adjustedWidth);
    var theoretical := totalPatternLength / (36.0 * across as real);
    var actual := ActualConsumption(theoretical, p.markerEfficiency, p.wastage);
    var markerLengthInches := totalPatternLength / (p.markerEfficiency / 100.0);
    Assemble(
      adjustedLength, adjustedWidth, theoretical, MarkerAdjusted(theoretical, p.markerEfficiency), actual,
      markerLengthInches / 36.0, (actual * p.orderQuantity) * YardsToMeters, Utilization(p.markerEfficiency, p.wastage),
      price, p.orderQuantity, WovenExtra(allowance, across))
  }

  function WovenFigures(p: Params): Figures
    requires WovenDefined(p)
  {
    var repeat := RepeatOrDefault(p);
    YardageFigures(p, if repeat > 0.0 then repeat else 0.0, p.fabricPricePerYard)
  }

  function DenimFigures(p: Params): Figures
    requires WovenDefined(p)
  {
    var y := YardageFigures(p, DenimAccessoryAllowance, p.fabricPricePerYard);
    y.(extra := DenimWeight(p, y.actual, y.extra.patternsAcross))
  }

  /** Denim's weight figures: the consumed square yards times the fabric's ounces per square yard. */
  function DenimWeight(p: Params, actual: real, across: int): Extra
  {
    var sqYardsPerPiece := actual * (p.fabricWidth / 36.0);
    var ozPerPiece := sqYardsPerPiece * p.fabricWeight;
    var kgPerPiece := ozPerPiece * OzToKg;
    DenimExtra(DenimAccessoryAllowance, across, ozPerPiece, kgPerPiece, kgPerPiece * p.orderQuantity)
  }

  predicate KnownGarmentType(tag: string)
  {
    tag == "knit" || tag == "woven" || tag == "denim"
  }

  /** The divisions of the family selected by `tag` are by nonzero values. */
  predicate Defined(tag: string, p: Params)
  {
    if tag == "knit" then KnitDefined(p) else WovenDefined(p)
  }

  function FiguresOf(tag: string, p: Params): Figures
    requires KnownGarmentType(tag) && Defined(tag, p)
  {
    if tag == "knit" then KnitFigures(p)
    else if tag == "woven" then WovenFigures(p)
    else DenimFigures(p)
  }

  /** Knit is priced per kg, woven and denim per yard. */
  function PriceOf(tag: string, p: Params): real
  {
    if tag == "knit" then p.fabricPricePerKg else p.fabricPricePerYard
  }

  // ---------------------------------------------------------------------------
  // Reported (rounded) results and the dispatcher
  // ---------------------------------------------------------------------------

  function Report(tag: string, unit: string, p: Params, price: real, f: Figures): ConsumptionResult
  {
    var details := match f.extra
      case KnitExtra(area) =>
        KnitDetails(RoundTo4(area), RoundTo4(f.markerLength))
      case WovenExtra(allowance, across) =>
        WovenDetails(RoundTo2(allowance), across, RoundTo4(f.markerLength))
      case DenimExtra(allowance, across, oz, kg, totalKg) =>
        DenimDetails(RoundTo2(oz), RoundTo4(kg), RoundTo4(kg * 12.0), RoundTo2(allowance / 36.0),
                     across, RoundTo4(f.markerLength), RoundTo2(totalKg));
    ConsumptionResult(
      tag, unit,
      RoundTo4(f.theoretical), RoundTo4(f.actual), RoundTo4(f.perDozen),
      RoundTo2(f.adjustedLength), RoundTo2(f.adjustedWidth),
      p.orderQuantity, RoundTo2(f.totalFabric), RoundTo2(f.totalFabricMeters),
      price, RoundTo2(f.costPerPiece), RoundTo2(f.costPerDozen), RoundTo2(f.totalCost),
      p.markerEfficiency, RoundTo2(f.utilization), RoundTo2(100.0 - f.utilization),
      RoundTo4(f.wastePerPiece), RoundTo2(f.totalWaste),
      details)
  }

  function CalculateKnitConsumption(p: Params): (r: ConsumptionResult)
    requires KnitDefined(p)
    ensures r.garmentType == "knit" && r.unit == "kg" && r.details.KnitDetails?
    ensures r.fabricPrice == p.fabricPricePerKg && r.orderQuantity == p.orderQuantity
  {
    Report("knit", "kg", p, p.fabricPricePerKg, KnitFigures(p))
  }

  function CalculateWovenConsumption(p: Params): (r: ConsumptionResult)
    requires WovenDefined(p)
    ensures r.garmentType == "woven" && r.unit == "yards" && r.details.WovenDetails?
    ensures r.fabricPrice == p.fabricPricePerYard && r.orderQuantity == p.orderQuantity
  {
    Report("woven", "yards", p, p.fabricPricePerYard, WovenFigures(p))
  }

  function CalculateDenimConsumption(p: Params): (r: ConsumptionResult)
    requires WovenDefined(p)
    ensures r.garmentType == "denim" && r.unit == "yards" && r.details.DenimDetails?
    ensures r.fabricPrice == p.fabricPricePerYard && r.orderQuantity == p.orderQuantity
  {
    Report("denim", "yards", p, p.fabricPricePerYard, DenimFigures(p))
  }

  /** The dispatcher: one formula per known tag, the "Unknown garment type" error otherwise. */
  function CalculateFabricConsumption(tag: string, p: Params): (r: Result<ConsumptionResult>)
    requires KnownGarmentType(tag) ==> Defined(tag, p)
    ensures r.Ok? <==> KnownGarmentType(tag)
    ensures r.Err? ==> r.error == "Unknown garment type: " + tag
    ensures r.Ok? ==> r.value.garmentType == tag
    ensures r.Ok? ==> r.value.unit == (if tag == "knit" then "kg" else "yards")
    ensures r.Ok? ==> r.value.fabricPrice == PriceOf(tag, p)
    ensures r.Ok? ==> r.value.actualConsumptionPerPiece == RoundTo4(FiguresOf(tag, p).actual)
  {
    if tag == "knit" then Ok(CalculateKnitConsumption(p))
    else if tag == "woven" then Ok(CalculateWovenConsumption(p))
    else if tag == "denim" then Ok(CalculateDenimConsumption(p))
    else Err("Unknown garment type: " + tag)
  }

  // ---------------------------------------------------------------------------
  // Validation
  // ---------------------------------------------------------------------------

  /** The checks of `validateInputs`, each with its message. */
  datatype Check =
    | PatternLengthCheck | PatternWidthCheck | FabricWidthCheck | EfficiencyCheck
    | ShrinkageLengthCheck | ShrinkageWidthCheck | WastageCheck | OrderQuantityCheck
    | GsmCheck | PricePerKgCheck | PricePerYardCheck | FabricWeightCheck

  const PatternLengthMessage := "Pattern length must be greater than 0"
  const PatternWidthMessage := "Pattern width must be greater than 0"
  const FabricWidthMessage := "Fabric width must be greater than 0"
  const EfficiencyMessage := "Marker efficiency must be between 0 and 100"
  const ShrinkageLengthMessage := "Shrinkage (length) must be between 0 and 50%"
  const ShrinkageWidthMessage := "Shrinkage (width) must be between 0 and 50%"
  const WastageMessage := "Wastage must be between 0 and 50%"
  const OrderQuantityMessage := "Order quantity must be greater than 0"
  const GsmMessage := "GSM must be greater than 0"
  const PricePerKgMessage := "Fabric price per kg must be greater than 0"
  const PricePerYardMessage := "Fabric price per yard must be greater than 0"
  const FabricWeightMessage := "Fabric weight (oz) must be greater than 0"

  /** The message `validateInputs` records for each failing check. */
  function Message(c: Check): string
  {
    match c
    case PatternLengthCheck => PatternLengthMessage
    case PatternWidthCheck => PatternWidthMessage
    case FabricWidthCheck => FabricWidthMessage
    case EfficiencyCheck => EfficiencyMessage
    case ShrinkageLengthCheck => ShrinkageLengthMessage
    case ShrinkageWidthCheck => ShrinkageWidthMessage
    case WastageCheck => WastageMessage
    case OrderQuantityCheck => OrderQuantityMessage
    case GsmCheck => GsmMessage
    case PricePerKgCheck => PricePerKgMessage
    case PricePerYardCheck => PricePerYardMessage
    case FabricWeightCheck => FabricWeightMessage
  }

  /** Whether a check rejects the parameters (`!x || x <= 0` is `x <= 0` on a number). */
  predicate Fails(c: Check, p: Params)
  {
    match c
    case PatternLengthCheck => p.patternLength <= 0.0
    case PatternWidthCheck => p.patternWidth <= 0.0
    case FabricWidthCheck => p.fabricWidth <= 0.0
    case EfficiencyCheck => p.markerEfficiency <= 0.0 || p.markerEfficiency > 100.0
    case ShrinkageLengthCheck => p.shrinkageLength < 0.0 || p.shrinkageLength > 50.0
    case ShrinkageWidthCheck => p.shrinkageWidth < 0.0 || p.shrinkageWidth > 50.0
    case WastageCheck => p.wastage < 0.0 || p.wastage > 50.0
    case OrderQuantityCheck => p.orderQuantity <= 0.0
    case GsmCheck => p.gsm <= 0.0
    case PricePerKgCheck => p.fabricPricePerKg <= 0.0
    case PricePerYardCheck => p.fabricPricePerYard <= 0.0
    case FabricWeightCheck => p.fabricWeight <= 0.0
  }

  /** Whether a check runs for a tag: the common eight always, GSM and price per kg for knit, price per yard otherwise, weight for denim. */
  predicate Applies(tag: string, c: Check)
  {
    match c
    case GsmCheck => tag == "knit"
    case PricePerKgCheck => tag == "knit"
    case PricePerYardCheck => tag != "knit"
    case FabricWeightCheck => tag == "denim"
    case _ => true
  }

  /** The failing checks so far, extended by `c` when it fails. */
  function Push(failed: seq<Check>, c: Check, p: Params): seq<Check>
  {
    if Fails(c, p) then failed + [c] else failed
  }

  /** The failing checks among the eight that every family runs, in order. */
  function CommonFailures(p: Params): seq<Check>
  {
    Push(Push(Push(Push(Push(Push(Push(Push([],
      PatternLengthCheck, p), PatternWidthCheck, p), FabricWidthCheck, p), EfficiencyCheck, p),
      ShrinkageLengthCheck, p), ShrinkageWidthCheck, p), WastageCheck, p), OrderQuantityCheck, p)
  }

  /** The family-specific checks, run after the common ones: price (and GSM for knit), then weight for denim. */
  function FamilyFailures(tag: string, common: seq<Check>, p: Params): seq<Check>
  {
    var priced :=
      if tag == "knit" then Push(Push(common, GsmCheck, p), PricePerKgCheck, p)
      else Push(common, PricePerYardCheck, p);
    if tag == "denim" then Push(priced, FabricWeightCheck, p) else priced
  }

  /** The failing checks of `validateInputs`, in the order its checks run. */
  function FailedChecks(tag: string, p: Params): seq<Check>
  {
    FamilyFailures(tag, CommonFailures(p), p)
  }

  function MessagesOf(checks: seq<Check>): (msgs: seq<string>)
    ensures |msgs| == |checks|
  {
    if checks == [] then [] else [Message(checks[0])] + MessagesOf(checks[1..])
  }

  /** The error list of `validateInputs`. */
  function ValidationErrors(tag: string, p: Params): seq<string>
  {
    MessagesOf(FailedChecks(tag, p))
  }

  /**
   * `validateInputs`: runs the checks in the source's order, recording each
   * failing one (`Push`); the error list is their messages in that order.
   */
  method ValidateInputs(tag: string, p: Params) returns (isValid: bool, errors: seq<string>)
    ensures errors == ValidationErrors(tag, p)
    ensures isValid <==> errors == []
  {
    var failed: seq<Check> := [];
    failed := Push(failed, PatternLengthCheck, p);
    failed := Push(failed, PatternWidthCheck, p);
    failed := Push(failed, FabricWidthCheck, p);
    failed := Push(failed, EfficiencyCheck, p);
    failed := Push(failed, ShrinkageLengthCheck, p);
    failed := Push(failed, ShrinkageWidthCheck, p);
    failed := Push(failed, WastageCheck, p);
    failed := Push(failed, OrderQuantityCheck, p);
    if tag == "knit" {
      failed := Push(failed, GsmCheck, p);
      failed := Push(failed, PricePerKgCheck, p);
    } else {
      failed := Push(failed, PricePerYardCheck, p);
    }
    if tag == "denim" {
      failed := Push(failed, FabricWeightCheck, p);
    }
    errors := MessagesOf(failed);
    isValid := |errors| == 0;
  }

  /** The data-model invariant of the parameters for one family. */
  predicate ValidParams(tag: string, p: Params)
  {
    p.patternLength > 0.0 && p.patternWidth > 0.0 && p.fabricWidth > 0.0
    && 0.0 < p.markerEfficiency <= 100.0
    && 0.0 <= p.shrinkageLength <= 50.0 && 0.0 <= p.shrinkageWidth <= 50.0
    && 0.0 <= p.wastage <= 50.0
    && p.orderQuantity > 0.0
    && (if tag == "knit" then p.gsm > 0.0 && p.fabricPricePerKg > 0.0 else p.fabricPricePerYard > 0.0)
    && (tag == "denim" ==> p.fabricWeight > 0.0)
  }

  /** The error list is empty exactly when the parameters satisfy the family's invariant. */
  lemma NoErrorsIffValid(tag: string, p: Params)
    ensures ValidationErrors(tag, p) == [] <==> ValidParams(tag, p)
  {
    var f := FailedChecks(tag, p);
    if ValidParams(tag, p) {
      assert f == [];
    } else {
      assert |f| > 0;
    }
  }

  /** The length of each message; only three pairs of checks share one. */
  function MessageSize(c: Check): int
  {
    match c
    case PatternLengthCheck => 37
    case PatternWidthCheck => 36
    case FabricWidthCheck => 35
    case EfficiencyCheck => 43
    case ShrinkageLengthCheck => 44
    case ShrinkageWidthCheck => 43
    case WastageCheck => 33
    case OrderQuantityCheck => 37
    case GsmCheck => 26
    case PricePerKgCheck => 42
    case PricePerYardCheck => 44
    case FabricWeightCheck => 41
  }

  lemma MessageLength(c: Check)
    ensures |Message(c)| == MessageSize(c)
  {
  }

  /** The pairs of checks whose messages have the same length differ in their first letter. */
  lemma SameSizeMessagesDiffer()
    ensures PatternLengthMessage[0] != OrderQuantityMessage[0]
    ensures EfficiencyMessage[0] != ShrinkageWidthMessage[0]
    ensures ShrinkageLengthMessage[0] != PricePerYardMessage[0]
  {
    assert PatternLengthMessage[0] == 'P' && OrderQuantityMessage[0] == 'O';
    assert EfficiencyMessage[0] == 'M' && ShrinkageWidthMessage[0] == 'S';
    assert ShrinkageLengthMessage[0] == 'S' && PricePerYardMessage[0] == 'F';
  }

  /** No two checks share a message. */
  lemma MessagesDistinct(c: Check, d: Check)
    ensures Message(c) == Message(d) ==> c == d
  {
    MessageLength(c);
    MessageLength(d);
    SameSizeMessagesDiffer();
  }

  lemma {:induction false} MessagesOfMembers(checks: seq<Check>, c: Check)
    ensures Message(c) in MessagesOf(checks) <==> c in checks
  {
    if checks != [] {
      MessagesOfMembers(checks[1..], c);
      MessagesDistinct(c, checks[0]);
      assert checks == [checks[0]] + checks[1..];
    }
  }

  lemma PushMember(failed: seq<Check>, d: Check, p: Params, c: Check)
    ensures c in Push(failed, d, p) <==> c in failed || (c == d && Fails(d, p))
  {
  }

  /** The eight checks every family runs. */
  predicate IsCommon(c: Check)
  {
    !(c.GsmCheck? || c.PricePerKgCheck? || c.PricePerYardCheck? || c.FabricWeightCheck?)
  }

  /** A common check is recorded exactly when it fails; no family check is recorded. */
  lemma CommonFailuresMembers(p: Params, c: Check)
    ensures c in CommonFailures(p) <==> IsCommon(c) && Fails(c, p)
  {
    PushMember([], PatternLengthCheck, p, c);
    var e1 := Push([], PatternLengthCheck, p);
    PushMember(e1, PatternWidthCheck, p, c);
    var e2 := Push(e1, PatternWidthCheck, p);
    PushMember(e2, FabricWidthCheck, p, c);
    var e3 := Push(e2, FabricWidthCheck, p);
    PushMember(e3, EfficiencyCheck, p, c);
    var e4 := Push(e3, EfficiencyCheck, p);
    PushMember(e4, ShrinkageLengthCheck, p, c);
    var e5 := Push(e4, ShrinkageLengthCheck, p);
    PushMember(e5, ShrinkageWidthCheck, p, c);
    var e6 := Push(e5, ShrinkageWidthCheck, p);
    PushMember(e6, WastageCheck, p, c);
    var e7 := Push(e6, WastageCheck, p);
    PushMember(e7, OrderQuantityCheck, p, c);
  }

  /** The family checks add exactly the family-specific checks that apply and fail. */
  lemma FamilyFailuresMembers(tag: string, common: seq<Check>, p: Params, c: Check)
    ensures c in FamilyFailures(tag, common, p) <==> c in common || (!IsCommon(c) && Applies(tag, c) && Fails(c, p))
  {
    if tag == "knit" {
      PushMember(common, GsmCheck, p, c);
      PushMember(Push(common, GsmCheck, p), PricePerKgCheck, p, c);
    } else {
      PushMember(common, PricePerYardCheck, p, c);
      if tag == "denim" {
        PushMember(Push(common, PricePerYardCheck, p), FabricWeightCheck, p, c);
      }
    }
  }

  /** A check is recorded exactly when it runs for the tag and fails. */
  lemma FailedChecksMembers(tag: string, p: Params, c: Check)
    ensures c in FailedChecks(tag, p) <==> Applies(tag, c) && Fails(c, p)
  {
    CommonFailuresMembers(p, c);
    FamilyFailuresMembers(tag, CommonFailures(p), p, c);
  }

  /** A check's message is reported exactly when the check runs for the tag and fails. */
  lemma ErrorReportedIffCheckFails(tag: string, p: Params, c: Check)
    ensures Message(c) in ValidationErrors(tag, p) <==> Applies(tag, c) && Fails(c, p)
  {
    MessagesOfMembers(FailedChecks(tag, p), c);
    FailedChecksMembers(tag, p, c);
  }

  /** Valid parameters make every division of the selected formula well defined. */
  lemma ValidIsDefined(tag: string, p: Params)
    requires ValidParams(tag, p)
    ensures Defined(tag, p)
  {
    if tag == "knit" {
      assert p.gsm * p.fabricWidth > 0.0;
    } else {
      assert Shrunk(p.patternWidth, p.shrinkageWidth) > 0.0 by {
        assert 1.0 + p.shrinkageWidth / 100.0 > 0.0;
      }
    }
  }

  // ---------------------------------------------------------------------------
  // Properties of the unrounded figures
  // ---------------------------------------------------------------------------

  /** Efficiency in (0,100] and wastage >= 0 never reduce consumption. */
  lemma AdjustmentsOnlyAdd(theoretical: real, efficiency: real, wastage: real)
    requires theoretical >= 0.0 && 0.0 < efficiency <= 100.0 && wastage >= 0.0
    ensures theoretical <= MarkerAdjusted(theoretical, efficiency) <= ActualConsumption(theoretical, efficiency, wastage)
  {
    var e := efficiency / 100.0;
    assert 0.0 < e <= 1.0;
    assert theoretical / e >= theoretical by {
      assert theoretical == (theoretical / e) * e;
      assert (theoretical / e) * e <= theoretical / e;
    }
    var m := MarkerAdjusted(theoretical, efficiency);
    assert m >= 0.0;
    assert m * (1.0 + wastage / 100.0) == m + m * (wastage / 100.0);
  }

  /** Lower marker efficiency means more fabric per piece. */
  lemma LowerEfficiencyNeedsMore(theoretical: real, e1: real, e2: real, wastage: real)
    requires theoretical >= 0.0 && 0.0 < e1 <= e2 && wastage >= 0.0
    ensures ActualConsumption(theoretical, e1, wastage) >= ActualConsumption(theoretical, e2, wastage)
  {
    var a := e1 / 100.0;
    var b := e2 / 100.0;
    assert 0.0 < a <= b;
    assert theoretical / a >= theoretical / b by {
      assert theoretical / a == (theoretical / b) * (b / a);
      assert b / a >= 1.0;
      assert theoretical / b >= 0.0;
    }
    var w := 1.0 + wastage / 100.0;
    assert w > 0.0;
  }

  lemma ShrunkPositive(d: real, s: real)
    requires d > 0.0 && s >= 0.0
    ensures Shrunk(d, s) >= d > 0.0
  {
    assert d * (1.0 + s / 100.0) == d + d * (s / 100.0);
  }

  /** For valid parameters the theoretical consumption is not negative. */
  lemma TheoreticalNonNegative(tag: string, p: Params)
    requires KnownGarmentType(tag) && ValidParams(tag, p)
    ensures Defined(tag, p) && FiguresOf(tag, p).theoretical >= 0.0
  {
    ValidIsDefined(tag, p);
    var al := Shrunk(p.patternLength, p.shrinkageLength);
    var aw := Shrunk(p.patternWidth, p.shrinkageWidth);
    ShrunkPositive(p.patternLength, p.shrinkageLength);
    ShrunkPositive(p.patternWidth, p.shrinkageWidth);
    if tag == "knit" {
      assert al * aw > 0.0;
      assert (al * aw / 10000.0) * p.gsm > 0.0;
    } else {
      var across := PatternsAcross(p.fabricWidth, aw);
      assert 36.0 * across as real > 0.0;
      if tag == "denim" {
        assert al + DenimAccessoryAllowance > 0.0;
      }
    }
  }

  /**
   * For validated inputs the actual consumption per piece is at least the
   * theoretical one, so the waste per piece is not negative.
   */
  lemma ActualAtLeastTheoretical(tag: string, p: Params)
    requires KnownGarmentType(tag) && ValidParams(tag, p)
    ensures Defined(tag, p)
    ensures 0.0 <= FiguresOf(tag, p).theoretical <= FiguresOf(tag, p).actual
    ensures FiguresOf(tag, p).wastePerPiece >= 0.0
  {
    TheoreticalNonNegative(tag, p);
    var f := FiguresOf(tag, p);
    AdjustmentsOnlyAdd(f.theoretical, p.markerEfficiency, p.wastage);
  }

  /** Lowering marker efficiency (all else equal) never lowers the actual consumption. */
  lemma LowerEfficiencyMoreFabric(tag: string, p: Params, lower: real)
    requires KnownGarmentType(tag) && ValidParams(tag, p)
    requires 0.0 < lower <= p.markerEfficiency
    ensures ValidParams(tag, p.(markerEfficiency := lower))
    ensures Defined(tag, p) && Defined(tag, p.(markerEfficiency := lower))
    ensures FiguresOf(tag, p.(markerEfficiency := lower)).actual >= FiguresOf(tag, p).actual
  {
    var q := p.(markerEfficiency := lower);
    TheoreticalNonNegative(tag, p);
    ValidIsDefined(tag, q);
    var f := FiguresOf(tag, p);
    var g := FiguresOf(tag, q);
    assert g.theoretical == f.theoretical;
    LowerEfficiencyNeedsMore(f.theoretical, lower, p.markerEfficiency, p.wastage);
  }

  /** Every family's per-dozen, per-order and cost figures are its per-piece ones scaled. */
  lemma ScalingIdentities(tag: string, p: Params)
    requires KnownGarmentType(tag) && Defined(tag, p)
    ensures Scaled(FiguresOf(tag, p), PriceOf(tag, p), p.orderQuantity)
  {
    if tag == "knit" {
      assert FiguresOf(tag, p) == KnitFigures(p);
    } else if tag == "woven" {
      assert FiguresOf(tag, p) == WovenFigures(p);
    } else {
      var y := YardageFigures(p, DenimAccessoryAllowance, p.fabricPricePerYard);
      ScaledIgnoresExtra(y, DenimWeight(p, y.actual, y.extra.patternsAcross), p.fabricPricePerYard, p.orderQuantity);
      assert FiguresOf(tag, p) == DenimFigures(p);
    }
  }

  lemma ScaledIgnoresExtra(f: Figures, e: Extra, price: real, quantity: real)
    requires Scaled(f, price, quantity)
    ensures Scaled(f.(extra := e), price, quantity)
  {
  }

  /** For valid inputs fabric utilization lies in [0, 100]. */
  lemma UtilizationInRange(tag: string, p: Params)
    requires KnownGarmentType(tag) && ValidParams(tag, p)
    ensures Defined(tag, p)
    ensures FiguresOf(tag, p).utilization == p.markerEfficiency * (100.0 - p.wastage) / 100.0
    ensures 0.0 <= FiguresOf(tag, p).utilization <= 100.0
  {
    ValidIsDefined(tag, p);
    UtilizationBounds(p.markerEfficiency, p.wastage);
  }

  lemma UtilizationBounds(efficiency: real, wastage: real)
    requires 0.0 < efficiency <= 100.0 && 0.0 <= wastage <= 50.0
    ensures 0.0 <= Utilization(efficiency, wastage) <= 100.0
  {
    var k := 100.0 - wastage;
    assert efficiency * k >= 0.0;
    assert 100.0 * k - efficiency * k == (100.0 - efficiency) * k;
    assert (100.0 - efficiency) * k >= 0.0;
  }

  /**
   * The reported utilization and waste percentage are the roundings of u and
   * 100 - u for the unrounded utilization u, so their sum is within a cent of 100.
   */
  lemma UtilizationAndWasteReported(tag: string, p: Params)
    requires KnownGarmentType(tag) && Defined(tag, p)
    ensures var r := CalculateFabricConsumption(tag, p).value;
            var u := FiguresOf(tag, p).utilization;
      && r.fabricUtilization == RoundTo2(u)
      && r.wastePercentage == RoundTo2(100.0 - u)
      && 99.99 < r.fabricUtilization + r.wastePercentage <= 100.01
  {
    var u := FiguresOf(tag, p).utilization;
    RoundTo2Error(u);
    RoundTo2Error(100.0 - u);
  }

  /** What `Math.max(1, Math.floor(width / adjusted))` means: that many widths fit, one more does not. */
  lemma PatternsAcrossFit(fabricWidth: real, adjustedWidth: real)
    requires adjustedWidth > 0.0
    ensures (fabricWidth / adjustedWidth).Floor >= 1 ==> PatternsAcross(fabricWidth, adjustedWidth) == (fabricWidth / adjustedWidth).Floor
    ensures fabricWidth >= adjustedWidth ==>
      var n := PatternsAcross(fabricWidth, adjustedWidth) as real;
      n * adjustedWidth <= fabricWidth < (n + 1.0) * adjustedWidth
    ensures fabricWidth < adjustedWidth ==> PatternsAcross(fabricWidth, adjustedWidth) == 1
  {
    var q := fabricWidth / adjustedWidth;
    var n := q.Floor as real;
    assert n <= q < n + 1.0;
    assert q * adjustedWidth == fabricWidth;
    if fabricWidth >= adjustedWidth {
      assert q >= 1.0 by {
        assert q * adjustedWidth >= 1.0 * adjustedWidth;
      }
      assert q.Floor >= 1;
      assert PatternsAcross(fabricWidth, adjustedWidth) == q.Floor;
      ScaleByPositive(n, q, adjustedWidth);
      ScaleByPositive(q, n + 1.0, adjustedWidth);
      assert q * adjustedWidth < (n + 1.0) * adjustedWidth;
      assert fabricWidth < (n + 1.0) * adjustedWidth;
    } else {
      assert q < 1.0 by {
        assert q * adjustedWidth < 1.0 * adjustedWidth;
      }
    }
  }

  lemma ScaleByPositive(a: real, b: real, c: real)
    requires a <= b && c > 0.0
    ensures a * c <= b * c
    ensures a < b ==> a * c < b * c
  {
    assert b * c - a * c == (b - a) * c;
  }

  /**
   * Denim's yardage, cost and totals are woven's with a 7.2 inch pattern
   * repeat; the allowance lengthens the pattern and leaves the count across the width alone.
   */
  lemma DenimIsWovenWithRepeat(p: Params)
    requires WovenDefined(p)
    ensures var d := DenimFigures(p);
            var w := WovenFigures(p.(patternRepeat := Some(7.2)));
      && d.theoretical == w.theoretical && d.actual == w.actual && d.perDozen == w.perDozen
      && d.costPerPiece == w.costPerPiece && d.costPerDozen == w.costPerDozen
      && d.totalFabric == w.totalFabric && d.totalFabricMeters == w.totalFabricMeters
      && d.totalCost == w.totalCost && d.wastePerPiece == w.wastePerPiece && d.totalWaste == w.totalWaste
      && d.markerLength == w.markerLength
      && d.extra.patternsAcross == w.extra.patternsAcross
      == PatternsAcross(p.fabricWidth, Shrunk(p.patternWidth, p.shrinkageWidth))
  {
    var q := p.(patternRepeat := Some(7.2));
    YardageIgnoresRepeat(p, Some(7.2), DenimAccessoryAllowance, p.fabricPricePerYard);
    assert WovenFigures(q) == YardageFigures(p, DenimAccessoryAllowance, p.fabricPricePerYard);
  }

  /** The yardage formula reads the repeat only through its `allowance` argument. */
  lemma YardageIgnoresRepeat(p: Params, repeat: Option<real>, allowance: real, price: real)
    requires WovenDefined(p)
    ensures YardageFigures(p.(patternRepeat := repeat), allowance, price) == YardageFigures(p, allowance, price)
  {
  }

  // ---------------------------------------------------------------------------
  // FOB impact
  // ---------------------------------------------------------------------------

  /** The unrounded FOB figures; a share is `None` where the source divides by zero. */
  datatype FOBFigures = FOBFigures(
    totalCostPerPiece: real, fobPerPiece: real, fobPerDozen: real,
    fabricShareOfCost: Option<real>, fabricShareOfFOB: Option<real>)

  datatype FOBImpact = FOBImpact(
    fabricCostPerPiece: real, fabricCostPerDozen: real,
    otherCostsPerPiece: real, otherCostsPerDozen: real,
    totalCostPerPiece: real, totalCostPerDozen: real,
    profitMargin: real,
    fobPerPiece: real, fobPerDozen: real,
    fabricPercentageOfCost: Option<real>, fabricPercentageOfFOB: Option<real>)

  function Share(part: real, whole: real): Option<real>
  {
    if whole == 0.0 then None else Some((part / whole) * 100.0)
  }

  function FOBFiguresOf(fabric: real, other: real, margin: real): FOBFigures
  {
    var total := fabric + other;
    var fob := total * (1.0 + margin / 100.0);
    FOBFigures(total, fob, fob * 12.0, Share(fabric, total), Share(fabric, fob))
  }

  function RoundShare(s: Option<real>): Option<real>
  {
    match s
    case None => None
    case Some(x) => Some(RoundTo2(x))
  }

  function CalculateFOBImpact(fabric: real, other: real, margin: real): (r: FOBImpact)
    ensures r.profitMargin == margin
    ensures r.fabricPercentageOfCost.None? <==> fabric + other == 0.0
  {
    var f := FOBFiguresOf(fabric, other, margin);
    FOBImpact(
      RoundTo2(fabric), RoundTo2(fabric * 12.0),
      RoundTo2(other), RoundTo2(other * 12.0),
      RoundTo2(f.totalCostPerPiece), RoundTo2(f.totalCostPerPiece * 12.0),
      margin,
      RoundTo2(f.fobPerPiece), RoundTo2(f.fobPerDozen),
      RoundShare(f.fabricShareOfCost), RoundShare(f.fabricShareOfFOB))
  }

  /**
   * The FOB price is the total cost marked up by the margin; a zero margin
   * leaves it at cost; a dozen is twelve pieces.
   */
  lemma FOBMarkup(fabric: real, other: real, margin: real)
    ensures var f := FOBFiguresOf(fabric, other, margin);
      && f.totalCostPerPiece == fabric + other
      && f.fobPerPiece - f.totalCostPerPiece == f.totalCostPerPiece * margin / 100.0
      && f.fobPerDozen == 12.0 * f.fobPerPiece
      && (margin == 0.0 ==> f.fobPerPiece == f.totalCostPerPiece)
  {
  }

  /**
   * With a positive total cost and a margin above -100%, both shares are
   * defined, the shares of fabric and other costs in the cost add up to 100,
   * and the share in the FOB is the share in the cost divided by the markup.
   */
  lemma FOBShares(fabric: real, other: real, margin: real)
    requires fabric + other > 0.0 && margin > -100.0
    ensures var f := FOBFiguresOf(fabric, other, margin);
      && f.fabricShareOfCost.Some? && f.fabricShareOfFOB.Some?
      && f.fabricShareOfCost.value + Share(other, fabric + other).value == 100.0
      && f.fabricShareOfFOB.value == f.fabricShareOfCost.value / (1.0 + margin / 100.0)
  {
    var total := fabric + other;
    var m := 1.0 + margin / 100.0;
    assert m > 0.0;
    var fob := total * m;
    assert fob > 0.0;
    assert (fabric / total) * 100.0 + (other / total) * 100.0 == ((fabric + other) / total) * 100.0;
    assert (fabric / fob) * 100.0 == ((fabric / total) * 100.0) / m;
  }

  /** A zero total cost leaves both shares undefined (NaN or Infinity in the source). */
  lemma FOBSharesUndefinedAtZeroCost(fabric: real, other: real, margin: real)
    requires fabric + other == 0.0
    ensures CalculateFOBImpact(fabric, other, margin).fabricPercentageOfCost.None?
    ensures CalculateFOBImpact(fabric, other, margin).fabricPercentageOfFOB.None?
  {
  }

  // ---------------------------------------------------------------------------
  // Benchmarks
  // ---------------------------------------------------------------------------

  datatype Range = Range(min: real, typical: real, max: real)
  datatype Shrinkage = Shrinkage(length: real, width: real)

  const MarkerEfficiencyBenchmarks: map<string, Range> := map[
    "knit" := Range(75.0, 82.0, 90.0),
    "woven" := Range(70.0, 78.0, 85.0),
    "denim" := Range(68.0, 75.0, 82.0)]

  const ShrinkageBenchmarks: map<string, Shrinkage> := map[
    "knit" := Shrinkage(5.0, 3.0),
    "woven" := Shrinkage(3.0, 2.0),
    "denim" := Shrinkage(10.0, 5.0)]

  const WastageBenchmarks: map<string, Range> := map[
    "knit" := Range(3.0, 5.0, 8.0),
    "woven" := Range(2.0, 4.0, 6.0),
    "denim" := Range(3.0, 5.0, 8.0)]

  /**
   * The names a plain object literal inherits from Object.prototype. The
   * benchmark tables are such literals, so `TABLE[tag]` finds the inherited
   * member for one of these names (a function, or Object.prototype itself for
   * "__proto__"). That member is truthy, so `|| TABLE.woven` is not taken and
   * the caller gets no range at all: `None` below.
   */
  predicate InheritedName(tag: string)
  {
    tag in {"constructor", "__proto__", "hasOwnProperty", "isPrototypeOf",
            "propertyIsEnumerable", "toLocaleString", "toString", "valueOf",
            "__defineGetter__", "__defineSetter__", "__lookupGetter__", "__lookupSetter__"}
  }

  function GetRecommendedEfficiency(tag: string): (r: Option<Range>)
    ensures r.None? <==> InheritedName(tag)
    ensures r.Some? ==> 0.0 < r.value.min <= r.value.typical <= r.value.max <= 100.0
  {
    if tag in MarkerEfficiencyBenchmarks then Some(MarkerEfficiencyBenchmarks[tag])
    else if InheritedName(tag) then None
    else Some(MarkerEfficiencyBenchmarks["woven"])
  }

  function GetRecommendedShrinkage(tag: string): (r: Option<Shrinkage>)
    ensures r.None? <==> InheritedName(tag)
    ensures r.Some? ==> 0.0 <= r.value.width <= r.value.length <= 50.0
  {
    if tag in ShrinkageBenchmarks then Some(ShrinkageBenchmarks[tag])
    else if InheritedName(tag) then None
    else Some(ShrinkageBenchmarks["woven"])
  }

  function GetRecommendedWastage(tag: string): (r: Option<Range>)
    ensures r.None? <==> InheritedName(tag)
    ensures r.Some? ==> 0.0 <= r.value.min <= r.value.typical <= r.value.max <= 50.0
  {
    if tag in WastageBenchmarks then Some(WastageBenchmarks[tag])
    else if InheritedName(tag) then None
    else Some(WastageBenchmarks["woven"])
  }

  /**
   * An unknown tag gets the woven benchmarks, unless it names an inherited
   * Object.prototype member, in which case no benchmark comes back.
   */
  lemma UnknownTagFallsBackToWoven(tag: string)
    requires !KnownGarmentType(tag)
    ensures !InheritedName(tag) ==> GetRecommendedEfficiency(tag) == Some(Range(70.0, 78.0, 85.0))
    ensures !InheritedName(tag) ==> GetRecommendedShrinkage(tag) == Some(Shrinkage(3.0, 2.0))
    ensures !InheritedName(tag) ==> GetRecommendedWastage(tag) == Some(Range(2.0, 4.0, 6.0))
    ensures InheritedName(tag) ==> GetRecommendedEfficiency(tag).None?
    ensures InheritedName(tag) ==> GetRecommendedShrinkage(tag).None? && GetRecommendedWastage(tag).None?
  {
  }

  /**
   * The recommended values of every tag that has them are ordered and pass
   * the validator's efficiency, shrinkage and wastage checks.
   */
  lemma RecommendedValuesPassValidation(tag: string, p: Params, e: Range, s: Shrinkage, w: Range)
    requires GetRecommendedEfficiency(tag) == Some(e)
    requires GetRecommendedShrinkage(tag) == Some(s)
    requires GetRecommendedWastage(tag) == Some(w)
    requires p.markerEfficiency == e.typical
    requires p.shrinkageLength == s.length && p.shrinkageWidth == s.width
    requires p.wastage == w.typical
    ensures e.min <= p.markerEfficiency <= e.max
    ensures w.min <= p.wastage <= w.max
    ensures !Fails(EfficiencyCheck, p) && !Fails(ShrinkageLengthCheck, p)
    ensures !Fails(ShrinkageWidthCheck, p) && !Fails(WastageCheck, p)
  {
  }
}
