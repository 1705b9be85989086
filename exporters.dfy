/**
 * The data-shaping part of the exporters (frontend/src/utils/exporters.js):
 * `toNumber`, the FOB export record built by `buildFOBData`, the garment
 * type labels, and the sanitiser that turns a style name into a file-name
 * fragment. The spreadsheet, HTML/PDF and sharing code is not modelled.
 */
module Exporters {
  import opened JsNumber

  /** A value handed to `toNumber`: a string, or a number (undefined or NaN as `None`; `null` is not modelled). */
  datatype JsValue = Text(s: string) | Num(n: Option<real>)

  /** `toNumber`: strings go through `parseFloat`, and undefined or NaN becomes 0. */
  function ToNumber(v: JsValue): (r: real)
    ensures v.Num? && v.n.Some? ==> r == v.n.value
    ensures v.Text? && ParseFloat(v.s).Some? ==> r == ParseFloat(v.s).value
    ensures v.Text? && ParseFloat(v.s).None? ==> r == 0.0
    ensures v == Num(None) ==> r == 0.0
  {
    match v
    case Text(s) => if ParseFloat(s).Some? then ParseFloat(s).value else 0.0
    case Num(n) => if n.Some? then n.value else 0.0
  }

  /** `toNumber` of a number-valued expression. */
  function NumberOr0(x: Option<real>): real
  {
    ToNumber(Num(x))
  }

  /** `a || b` on numbers: `b` when `a` is 0 or NaN. */
  function OrElse(a: Option<real>, b: Option<real>): Option<real>
  {
    if a.Some? && a.value != 0.0 then a else b
  }

  /** Arithmetic that keeps NaN (None) as NaN. */
  function Times(a: Option<real>, k: real): Option<real>
  {
    if a.Some? then Some(a.value * k) else None
  }

  // ---------------------------------------------------------------------------
  // Inputs of buildFOBData
  // ---------------------------------------------------------------------------

  /** The FOB calculator's inputs that the export reads (per-piece costs). */
  datatype FobInputs = FobInputs(
    styleName: Option<string>,
    buyerName: Option<string>,
    aopPrintCostPerPc: Option<real>,
    accessoriesCostPerPc: Option<real>,
    cmCostPerPc: Option<real>,
    washingCostPerPc: Option<real>,
    commercialCostPerPc: Option<real>,
    testingCostPerPc: Option<real>)

  /** The FOB breakdown fields the export reads. */
  datatype FobBreakdown = FobBreakdown(
    garmentType: Option<string>,
    totalCostPerDoz: Option<real>,
    totalCostPerPc: Option<real>,
    fabricCostPerDoz: Option<real>,
    fabricCostPerPc: Option<real>,
    basicConsumptionKgDoz: Option<real>,
    totalFabricReqKgDoz: Option<real>,
    basicConsumptionYardsPiece: Option<real>,
    totalFabricReqYardsDoz: Option<real>)

  /** A cost line in both units, each rounded to cents. */
  datatype CostLine = CostLine(perDoz: real, perPc: real)

  datatype Costs = Costs(fabric: CostLine, aopPrint: CostLine, accessories: CostLine, cm: CostLine,
                         washing: CostLine, commercial: CostLine, testing: CostLine)

  /** Which consumption block the export shows (the label texts are presentation). */
  datatype ConsumptionUnit = KgPerDozen | YardsPerPiece

  datatype Consumption = Consumption(unit: ConsumptionUnit, basic: Option<real>, total: Option<real>)

  datatype FOBData = FOBData(
    style: string,
    buyer: string,
    garmentType: string,
    profitMargin: real,
    finalFobPerDoz: real,
    finalFobPerPc: real,
    totalCostPerDoz: real,
    totalCostPerPc: real,
    costs: Costs,
    consumption: Consumption)

  const KNIT_GARMENT: string := "T-Shirt (Knit)"

  /** `Number(toNumber(x).toFixed(2))`, with cent rounding as `Math.round` does it. */
  function Cents(x: Option<real>): real
  {
    RoundTo2(NumberOr0(x))
  }

  /** A per-piece input shown per dozen and per piece. */
  function PerPieceLine(perPc: Option<real>): CostLine
  {
    CostLine(Cents(Times(perPc, 12.0)), Cents(perPc))
  }

  /** `buildFOBData`: `finalFob` is the per-dozen FOB. */
  function BuildFOBData(inputs: FobInputs, breakdown: FobBreakdown, finalFob: Option<real>, profitMargin: JsValue): (d: FOBData)
    ensures inputs.styleName.None? ==> d.style == "N/A"
    ensures inputs.buyerName.None? ==> d.buyer == "N/A"
    ensures breakdown.garmentType.None? ==> d.garmentType == "N/A" && d.consumption.unit != KgPerDozen
    ensures d.profitMargin == ToNumber(profitMargin)
  {
    var isKnit := breakdown.garmentType == Some(KNIT_GARMENT);
    var totalCostPerDoz := OrElse(breakdown.totalCostPerDoz, Times(breakdown.totalCostPerPc, 12.0));
    var fabricCostPerDoz := OrElse(breakdown.fabricCostPerDoz, Times(breakdown.fabricCostPerPc, 12.0));
    FOBData(
      OrDefaultText(inputs.styleName, "N/A"),
      OrDefaultText(inputs.buyerName, "N/A"),
      OrDefaultText(breakdown.garmentType, "N/A"),
      ToNumber(profitMargin),
      Cents(finalFob),
      Cents(if finalFob.Some? then Some(finalFob.value / 12.0) else None),
      Cents(totalCostPerDoz),
      Cents(breakdown.totalCostPerPc),
      Costs(
        CostLine(Cents(fabricCostPerDoz), Cents(breakdown.fabricCostPerPc)),
        PerPieceLine(inputs.aopPrintCostPerPc),
        PerPieceLine(inputs.accessoriesCostPerPc),
        PerPieceLine(inputs.cmCostPerPc),
        PerPieceLine(inputs.washingCostPerPc),
        PerPieceLine(inputs.commercialCostPerPc),
        PerPieceLine(inputs.testingCostPerPc)),
      if isKnit then Consumption(KgPerDozen, breakdown.basicConsumptionKgDoz, breakdown.totalFabricReqKgDoz)
      else Consumption(YardsPerPiece, breakdown.basicConsumptionYardsPiece, breakdown.totalFabricReqYardsDoz))
  }

  /** The final FOB is taken as per dozen: the piece price is a twelfth of it, each rounded to cents. */
  lemma FinalFobIsPerDozen(inputs: FobInputs, breakdown: FobBreakdown, fob: real, margin: JsValue)
    ensures var d := BuildFOBData(inputs, breakdown, Some(fob), margin);
      d.finalFobPerDoz == RoundTo2(fob) && d.finalFobPerPc == RoundTo2(fob / 12.0)
      && -0.005 < d.finalFobPerPc - fob / 12.0 <= 0.005
  {
    RoundTo2Error(fob / 12.0);
  }

  /** Per-dozen totals fall back to twelve times the per-piece figure when missing or 0. */
  lemma PerDozenFallback(inputs: FobInputs, breakdown: FobBreakdown, fob: Option<real>, margin: JsValue)
    ensures var d := BuildFOBData(inputs, breakdown, fob, margin);
      var totalDoz := breakdown.totalCostPerDoz;
      var fabricDoz := breakdown.fabricCostPerDoz;
      && (totalDoz.Some? && totalDoz.value != 0.0 ==> d.totalCostPerDoz == RoundTo2(totalDoz.value))
      && (totalDoz == None || totalDoz == Some(0.0) ==>
            d.totalCostPerDoz == RoundTo2(NumberOr0(Times(breakdown.totalCostPerPc, 12.0))))
      && (fabricDoz == None || fabricDoz == Some(0.0) ==>
            d.costs.fabric.perDoz == RoundTo2(NumberOr0(Times(breakdown.fabricCostPerPc, 12.0))))
  {
  }

  /**
   * Each per-piece input line is shown per dozen as twelve times the
   * piece cost; both are rounded separately, so they agree to within
   * 0.065 rather than exactly.
   */
  lemma PerDozenLinesAreTwelveTimes(perPc: real)
    ensures PerPieceLine(Some(perPc)).perDoz == RoundTo2(12.0 * perPc)
    ensures PerPieceLine(Some(perPc)).perPc == RoundTo2(perPc)
    ensures -0.065 < PerPieceLine(Some(perPc)).perDoz - 12.0 * PerPieceLine(Some(perPc)).perPc < 0.065
  {
    RoundTo2Error(12.0 * perPc);
    RoundTo2Error(perPc);
    assert perPc * 12.0 == 12.0 * perPc;
  }

  /** A missing per-piece input shows as 0 in both columns. */
  lemma MissingLineIsZero()
    ensures PerPieceLine(None) == CostLine(0.0, 0.0)
  {
    assert RoundTo2(0.0) == 0.0;
  }

  /** The kg-per-dozen consumption block is used exactly for the knit T-shirt type; names default to "N/A". */
  lemma KnitConsumptionBlock(inputs: FobInputs, breakdown: FobBreakdown, fob: Option<real>, margin: JsValue)
    ensures var d := BuildFOBData(inputs, breakdown, fob, margin);
      && (d.consumption.unit == KgPerDozen <==> breakdown.garmentType == Some("T-Shirt (Knit)"))
      && (inputs.styleName == None || inputs.styleName == Some("") ==> d.style == "N/A")
      && (inputs.buyerName == None || inputs.buyerName == Some("") ==> d.buyer == "N/A")
      && (d.consumption.unit == KgPerDozen ==> d.consumption.basic == breakdown.basicConsumptionKgDoz)
      && (d.consumption.unit == YardsPerPiece ==> d.consumption.total == breakdown.totalFabricReqYardsDoz)
  {
  }

  // ---------------------------------------------------------------------------
  // File names
  // ---------------------------------------------------------------------------

  /** The characters `[a-z0-9_-]` with the `i` flag lets through. */
  predicate FileNameChar(c: char)
  {
    'a' <= c <= 'z' || 'A' <= c <= 'Z' || '0' <= c <= '9' || c == '_' || c == '-'
  }

  /** `.replace(/[^a-z0-9_-]/gi, '_')`. */
  function SafeFileName(s: string): (r: string)
    ensures |r| == |s|
    ensures forall i :: 0 <= i < |r| ==> FileNameChar(r[i])
    ensures forall i :: 0 <= i < |s| ==> (FileNameChar(s[i]) <==> r[i] == s[i])
  {
    if s == [] then [] else [if FileNameChar(s[0]) then s[0] else '_'] + SafeFileName(s[1..])
  }

  /** The style fragment of FOB export names. */
  function FobFileStyle(data: FOBData): string
  {
    SafeFileName(data.style)
  }

  /** The style fragment of fabric-analysis export names: `styleName || 'analysis'`. */
  function FabricFileStyle(styleName: Option<string>): string
  {
    SafeFileName(OrDefaultText(styleName, "analysis"))
  }

  /** Sanitising twice is sanitising once. */
  lemma SafeFileNameIdempotent(s: string)
    ensures SafeFileName(SafeFileName(s)) == SafeFileName(s)
  {
    var once := SafeFileName(s);
    var twice := SafeFileName(once);
    assert forall i :: 0 <= i < |once| ==> twice[i] == once[i];
  }

  /** A name made only of allowed characters is left as it is. */
  lemma SafeFileNameKeepsAllowed(s: string)
    requires forall i :: 0 <= i < |s| ==> FileNameChar(s[i])
    ensures SafeFileName(s) == s
  {
    assert forall i :: 0 <= i < |s| ==> SafeFileName(s)[i] == s[i];
  }

  /** A sanitised fragment cannot hold a path separator. */
  lemma SafeFileNameHasNoSeparator(s: string)
    ensures '/' !in SafeFileName(s) && '\\' !in SafeFileName(s) && '.' !in SafeFileName(s)
  {
    var r := SafeFileName(s);
    forall i | 0 <= i < |r| ensures r[i] != '/' && r[i] != '\\' && r[i] != '.' {
      assert FileNameChar(r[i]);
    }
  }

  // ---------------------------------------------------------------------------
  // Garment type labels
  // ---------------------------------------------------------------------------

  /** `getGarmentTypeLabel`. */
  function GetGarmentTypeLabel(tag: string): (l: string)
    ensures tag in {"knit", "woven", "denim"} ==> l != tag && |l| > |tag|
    ensures tag !in {"knit", "woven", "denim"} ==> l == tag
  {
    if tag == "knit" then "Knit (T-Shirt/Polo)"
    else if tag == "woven" then "Woven (Shirt/Blouse)"
    else if tag == "denim" then "Denim (Jeans/Jacket)"
    else tag
  }

  /** The three tags get their fixed labels and every other tag is shown unchanged. */
  lemma GarmentTypeLabelIff(tag: string)
    ensures GetGarmentTypeLabel(tag) == tag <==> tag !in {"knit", "woven", "denim"}
  {
  }
}
