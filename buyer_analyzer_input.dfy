/**
 * The logic of the buyer analyzer's input screen
 * (frontend/src/screens/BuyerAnalyzerInputScreen.js): the keystroke
 * filter, the cost toggles, the live total and margin preview, and the
 * checks and defaults applied before the analyzer is called.
 */
module BuyerAnalyzerInput {
  import opened JsNumber
  import NumericEntry
  import MA = MarginAnalyzer

  /** The screen's text fields and toggles (a cost field not in `costs` holds ''). */
  datatype BuyerForm = BuyerForm(
    buyerTargetFob: string,
    quotedFob: string,
    orderQuantity: string,
    targetProfitPercent: string,
    costs: map<MA.CostKey, string>,
    costToggles: map<MA.CostKey, bool>)

  function CostText(form: BuyerForm, k: MA.CostKey): string
  {
    if k in form.costs then form.costs[k] else ""
  }

  /** `parseFloat(cost) || 0`. */
  function CostAmount(form: BuyerForm, k: MA.CostKey): real
  {
    OrDefault(ParseFloat(CostText(form, k)), 0.0)
  }

  // ---------------------------------------------------------------------------
  // Keystroke filter
  // ---------------------------------------------------------------------------

  /** `handleNumericChange`: the field takes the new text only when the filter accepts it. */
  function HandleNumericChange(current: string, value: string): (next: string)
    ensures NumericEntry.AcceptsEntry(value) ==> next == value
    ensures !NumericEntry.AcceptsEntry(value) ==> next == current
  {
    if NumericEntry.AcceptsEntry(value) then value else current
  }

  /** A field that starts out accepted stays accepted, whatever is typed. */
  lemma FieldStaysAccepted(current: string, value: string)
    requires NumericEntry.AcceptsEntry(current)
    ensures NumericEntry.AcceptsEntry(HandleNumericChange(current, value))
  {
  }

  // ---------------------------------------------------------------------------
  // Toggles
  // ---------------------------------------------------------------------------

  /** `if (costToggles.key)`: a missing key is off on this screen. */
  predicate On(toggles: map<MA.CostKey, bool>, k: MA.CostKey)
  {
    k in toggles && toggles[k]
  }

  predicate HasAllToggles(toggles: map<MA.CostKey, bool>)
  {
    forall k: MA.CostKey :: k in toggles
  }

  const INITIAL_TOGGLES: map<MA.CostKey, bool> := map[
    MA.Fabric := true, MA.Trims := true, MA.Packaging := true, MA.Cm := true,
    MA.Washing := true, MA.Testing := true, MA.Logistics := true, MA.Overhead := true]

  /** `toggleCost`: `{ ...prev, [key]: !prev[key] }`. */
  function ToggleCost(toggles: map<MA.CostKey, bool>, k: MA.CostKey): (r: map<MA.CostKey, bool>)
    ensures k in r && r[k] == !On(toggles, k)
    ensures forall j :: j != k ==> (j in r <==> j in toggles) && (j in toggles ==> r[j] == toggles[j])
  {
    toggles[k := !On(toggles, k)]
  }

  /** The screen starts with every line on, and toggling keeps all eight keys present. */
  lemma TogglesStayComplete(toggles: map<MA.CostKey, bool>, k: MA.CostKey)
    ensures HasAllToggles(INITIAL_TOGGLES) && forall j :: On(INITIAL_TOGGLES, j)
    ensures HasAllToggles(toggles) ==> HasAllToggles(ToggleCost(toggles, k))
  {
    forall j: MA.CostKey ensures j in INITIAL_TOGGLES && INITIAL_TOGGLES[j] {
      match j
      case Fabric =>
      case Trims =>
      case Packaging =>
      case Cm =>
      case Washing =>
      case Testing =>
      case Logistics =>
      case Overhead =>
    }
  }

  /** Toggling a line twice gives every line its old on/off state back. */
  lemma ToggleTwice(toggles: map<MA.CostKey, bool>, k: MA.CostKey)
    ensures forall j :: On(ToggleCost(ToggleCost(toggles, k), k), j) == On(toggles, j)
    ensures k in toggles ==> ToggleCost(ToggleCost(toggles, k), k) == toggles
  {
    if k in toggles {
      var twice := ToggleCost(ToggleCost(toggles, k), k);
      assert twice.Keys == toggles.Keys;
    }
  }

  // ---------------------------------------------------------------------------
  // Live total and preview
  // ---------------------------------------------------------------------------

  function ScreenContribution(form: BuyerForm, k: MA.CostKey): real
  {
    if On(form.costToggles, k) then CostAmount(form, k) else 0.0
  }

  /** The screen's sum over `keys`. */
  function ScreenSum(form: BuyerForm, keys: seq<MA.CostKey>): real
  {
    if keys == [] then 0.0
    else ScreenSum(form, keys[..|keys| - 1]) + ScreenContribution(form, keys[|keys| - 1])
  }

  function ScreenTotal(form: BuyerForm): real
  {
    ScreenSum(form, MA.CostKeys)
  }

  lemma ScreenSumStep(form: BuyerForm, ks: seq<MA.CostKey>, i: nat)
    requires i < |ks|
    ensures ScreenSum(form, ks[..i + 1]) == ScreenSum(form, ks[..i]) + ScreenContribution(form, ks[i])
  {
    assert ks[..i + 1][..i] == ks[..i];
  }

  lemma ScreenTotalExpanded(form: BuyerForm)
    ensures ScreenTotal(form) ==
      ScreenContribution(form, MA.Fabric) + ScreenContribution(form, MA.Trims)
      + ScreenContribution(form, MA.Packaging) + ScreenContribution(form, MA.Cm)
      + ScreenContribution(form, MA.Washing) + ScreenContribution(form, MA.Testing)
      + ScreenContribution(form, MA.Logistics) + ScreenContribution(form, MA.Overhead)
  {
    ScreenSumOfFirstFour(form, MA.CostKeys);
    ScreenSumOfLastFour(form, MA.CostKeys);
  }

  lemma ScreenSumOfFirstFour(form: BuyerForm, ks: seq<MA.CostKey>)
    requires |ks| >= 4
    ensures ScreenSum(form, ks[..4]) ==
      ScreenContribution(form, ks[0]) + ScreenContribution(form, ks[1])
      + ScreenContribution(form, ks[2]) + ScreenContribution(form, ks[3])
  {
    assert ks[..0] == [];
    ScreenSumStep(form, ks, 0);
    ScreenSumStep(form, ks, 1);
    ScreenSumStep(form, ks, 2);
    ScreenSumStep(form, ks, 3);
  }

  lemma ScreenSumOfLastFour(form: BuyerForm, ks: seq<MA.CostKey>)
    requires |ks| == 8
    ensures ScreenSum(form, ks) == ScreenSum(form, ks[..4])
      + ScreenContribution(form, ks[4]) + ScreenContribution(form, ks[5])
      + ScreenContribution(form, ks[6]) + ScreenContribution(form, ks[7])
  {
    ScreenSumStep(form, ks, 4);
    ScreenSumStep(form, ks, 5);
    ScreenSumStep(form, ks, 6);
    ScreenSumStep(form, ks, 7);
    assert ks[..8] == ks;
  }

  /** `calculateTotalCost`: eight guarded additions. */
  method CalculateTotalCost(form: BuyerForm) returns (total: real)
    ensures total == ScreenTotal(form)
  {
    var t := form.costToggles;
    total := 0.0;
    if On(t, MA.Fabric) { total := total + CostAmount(form, MA.Fabric); }
    assert total == ScreenContribution(form, MA.Fabric);
    if On(t, MA.Trims) { total := total + CostAmount(form, MA.Trims); }
    assert total == ScreenContribution(form, MA.Fabric) + ScreenContribution(form, MA.Trims);
    if On(t, MA.Packaging) { total := total + CostAmount(form, MA.Packaging); }
    assert total == ScreenContribution(form, MA.Fabric) + ScreenContribution(form, MA.Trims) + ScreenContribution(form, MA.Packaging);
    if On(t, MA.Cm) { total := total + CostAmount(form, MA.Cm); }
    assert total == ScreenContribution(form, MA.Fabric) + ScreenContribution(form, MA.Trims) + ScreenContribution(form, MA.Packaging) + ScreenContribution(form, MA.Cm);
    if On(t, MA.Washing) { total := total + CostAmount(form, MA.Washing); }
    assert total == ScreenContribution(form, MA.Fabric) + ScreenContribution(form, MA.Trims) + ScreenContribution(form, MA.Packaging) + ScreenContribution(form, MA.Cm) + ScreenContribution(form, MA.Washing);
    if On(t, MA.Testing) { total := total + CostAmount(form, MA.Testing); }
    assert total == ScreenContribution(form, MA.Fabric) + ScreenContribution(form, MA.Trims) + ScreenContribution(form, MA.Packaging) + ScreenContribution(form, MA.Cm) + ScreenContribution(form, MA.Washing) + ScreenContribution(form, MA.Testing);
    if On(t, MA.Logistics) { total := total + CostAmount(form, MA.Logistics); }
    assert total == ScreenContribution(form, MA.Fabric) + ScreenContribution(form, MA.Trims) + ScreenContribution(form, MA.Packaging) + ScreenContribution(form, MA.Cm) + ScreenContribution(form, MA.Washing) + ScreenContribution(form, MA.Testing) + ScreenContribution(form, MA.Logistics);
    if On(t, MA.Overhead) { total := total + CostAmount(form, MA.Overhead); }
    assert total == ScreenContribution(form, MA.Fabric) + ScreenContribution(form, MA.Trims) + ScreenContribution(form, MA.Packaging) + ScreenContribution(form, MA.Cm) + ScreenContribution(form, MA.Washing) + ScreenContribution(form, MA.Testing) + ScreenContribution(form, MA.Logistics) + ScreenContribution(form, MA.Overhead);
    ScreenTotalExpanded(form);
  }

  /** The preview margin: (target - total) / target * 100 for a positive target, else 0. */
  function PreviewMargin(form: BuyerForm, total: real): (m: real)
    ensures var t := ParseFloat(form.buyerTargetFob);
      (t.Some? && t.value > 0.0 ==> m == MA.MarginPercent(t.value, total))
    ensures var t := ParseFloat(form.buyerTargetFob);
      (t.None? || t.value <= 0.0 ==> m == 0.0)
  {
    PreviewOfTarget(ParseFloat(form.buyerTargetFob), total)
  }

  /** The preview's formula on the parsed target: 0 unless the target is a positive number. */
  function PreviewOfTarget(target: Option<real>, total: real): real
  {
    if target.Some? && target.value > 0.0 then (target.value - total) / target.value * 100.0 else 0.0
  }

  // ---------------------------------------------------------------------------
  // Analyze: checks and defaults
  // ---------------------------------------------------------------------------

  /** The inputs object passed to the analyzer. */
  function ToAnalyzerInputs(form: BuyerForm): (i: MA.AnalyzerInputs)
    ensures i.buyerTargetFob == ParseFloat(form.buyerTargetFob)
    ensures i.quotedFob.Some? && i.orderQuantity.Some? && i.targetProfitPercent.Some?
    ensures i.costToggles == form.costToggles
    ensures forall k :: k in MA.CostKeys ==> k in i.costs
  {
    MA.AnalyzerInputs(
      ParseFloat(form.buyerTargetFob),
      Some(OrDefault(ParseFloat(form.quotedFob), 0.0)),
      Some(OrDefaultInt(ParseInt(form.orderQuantity), 1000) as real),
      Some(OrDefault(ParseFloat(form.targetProfitPercent), 15.0)),
      map k: MA.CostKey | k in MA.CostKeys :: CostAmount(form, k),
      form.costToggles)
  }

  /** The target check as written: `!buyerTargetFob || parseFloat(buyerTargetFob) <= 0`. */
  predicate TargetMissingAsWritten(target: string)
  {
    target == "" || (ParseFloat(target).Some? && ParseFloat(target).value <= 0.0)
  }

  /** The target check as intended: no number, or not a positive one. */
  predicate TargetMissing(target: string)
  {
    ParseFloat(target).None? || ParseFloat(target).value <= 0.0
  }

  /**
   * The written check lets through "." and "-", which the keystroke filter
   * admits and which read as NaN; the analyzer then sees a target of 0
   * and reports every share as 0.
   */
  lemma DigitlessTargetPassesWrittenCheck()
    ensures NumericEntry.AcceptsEntry(".") && !TargetMissingAsWritten(".") && ParseFloat(".").None?
    ensures NumericEntry.AcceptsEntry("-") && !TargetMissingAsWritten("-") && ParseFloat("-").None?
    ensures TargetMissing(".") && TargetMissing("-")
  {
    assert SplitSign(".") == (false, ".");
    assert DigitPrefix(".") == [];
    assert "."[0..] == ".";
    assert DigitPrefix("."[1..]) == [];
    assert "-"[1..] == "";
    assert SplitSign("-") == (true, "");
    assert DigitPrefix("") == [];
  }

  /** The two checks differ exactly on non-empty texts without a number. */
  lemma TargetChecksAgreeOnNumbers(target: string)
    ensures TargetMissing(target) <==> TargetMissingAsWritten(target) || ParseFloat(target).None?
    ensures target == "" ==> ParseFloat(target).None?
  {
    if target == "" {
      assert SplitSign("") == (false, "");
    }
  }

  datatype AnalyzeOutcome = RefusedMissingTarget | RefusedNoCost | Analyze(inputs: MA.AnalyzerInputs)

  /**
   * `handleAnalyze`, with the intended target check: refuses a target that
   * is not a positive number, then a total cost that is not positive, and
   * otherwise builds the analyzer inputs with their defaults.
   */
  method HandleAnalyze(form: BuyerForm) returns (outcome: AnalyzeOutcome)
    ensures outcome == RefusedMissingTarget <==> TargetMissing(form.buyerTargetFob)
    ensures outcome == RefusedNoCost <==> !TargetMissing(form.buyerTargetFob) && ScreenTotal(form) <= 0.0
    ensures outcome.Analyze? ==> outcome.inputs == ToAnalyzerInputs(form)
  {
    var target := ParseFloat(form.buyerTargetFob);
    if target.None? || target.value <= 0.0 {
      return RefusedMissingTarget;
    }
    var totalCost := CalculateTotalCost(form);
    if totalCost <= 0.0 {
      return RefusedNoCost;
    }
    outcome := Analyze(ToAnalyzerInputs(form));
  }

  /** `handleAnalyze` with its target check as written. */
  function HandleAnalyzeAsWritten(form: BuyerForm): (outcome: AnalyzeOutcome)
    ensures outcome == RefusedMissingTarget <==> TargetMissingAsWritten(form.buyerTargetFob)
    ensures outcome == RefusedNoCost <==> !TargetMissingAsWritten(form.buyerTargetFob) && ScreenTotal(form) <= 0.0
    ensures outcome.Analyze? ==> outcome.inputs == ToAnalyzerInputs(form)
  {
    if TargetMissingAsWritten(form.buyerTargetFob) then RefusedMissingTarget
    else if ScreenTotal(form) <= 0.0 then RefusedNoCost
    else Analyze(ToAnalyzerInputs(form))
  }

  /**
   * As written, a target of "." with some cost entered reaches the
   * analyzer, which reads the target as 0 and so reports a 0% margin
   * whatever the cost; the intended check refuses it.
   */
  lemma DotTargetReachesAnalyzer(form: BuyerForm)
    requires form.buyerTargetFob == "." && ScreenTotal(form) > 0.0
    ensures HandleAnalyzeAsWritten(form).Analyze?
    ensures MA.BuyerTarget(HandleAnalyzeAsWritten(form).inputs) == 0.0
    ensures MA.MarginPercent(MA.BuyerTarget(HandleAnalyzeAsWritten(form).inputs),
                             MA.TotalCost(HandleAnalyzeAsWritten(form).inputs)) == 0.0
    ensures TargetMissing(form.buyerTargetFob)
  {
    DigitlessTargetPassesWrittenCheck();
  }

  /** An accepted analysis hands the analyzer a positive target and a positive total cost. */
  lemma AnalyzedInputsArePositive(form: BuyerForm)
    requires !TargetMissing(form.buyerTargetFob) && ScreenTotal(form) > 0.0
    requires HasAllToggles(form.costToggles)
    ensures MA.BuyerTarget(ToAnalyzerInputs(form)) == ParseFloat(form.buyerTargetFob).value > 0.0
    ensures MA.TotalCost(ToAnalyzerInputs(form)) > 0.0
  {
    ScreenTotalMatchesAnalyzer(form);
  }

  /**
   * Order quantity defaults to 1000 and target profit to 15% when unparsable
   * or 0; any other parsed value reaches the analyzer unchanged.
   */
  lemma InputDefaults(form: BuyerForm)
    ensures ParseInt(form.orderQuantity) == None || ParseInt(form.orderQuantity) == Some(0)
            ==> MA.Quantity(ToAnalyzerInputs(form)) == 1000
    ensures ParseFloat(form.targetProfitPercent) == None || ParseFloat(form.targetProfitPercent) == Some(0.0)
            ==> MA.TargetProfit(ToAnalyzerInputs(form)) == 15.0
    ensures forall n :: (ParseInt(form.orderQuantity) == Some(n) && n != 0
                         ==> MA.Quantity(ToAnalyzerInputs(form)) == n)
    ensures forall x :: (ParseFloat(form.targetProfitPercent) == Some(x) && x != 0.0
                         ==> MA.TargetProfit(ToAnalyzerInputs(form)) == x)
  {
    var inputs := ToAnalyzerInputs(form);
    var q := OrDefaultInt(ParseInt(form.orderQuantity), 1000);
    assert inputs.orderQuantity == Some(q as real);
    TruncateOfInteger(q);
  }

  lemma TruncateOfInteger(n: int)
    ensures MA.Truncate(n as real) == n
  {
  }

  // ---------------------------------------------------------------------------
  // Agreement with the analyzer
  // ---------------------------------------------------------------------------

  lemma {:induction false} ScreenSumMatches(form: BuyerForm, ks: seq<MA.CostKey>)
    requires HasAllToggles(form.costToggles)
    requires forall k :: k in ks ==> k in MA.CostKeys
    ensures ScreenSum(form, ks) == MA.SumEnabled(ToAnalyzerInputs(form), ks)
  {
    if ks != [] {
      var last := ks[|ks| - 1];
      ScreenSumMatches(form, ks[..|ks| - 1]);
      assert last in MA.CostKeys;
      assert MA.CostValue(ToAnalyzerInputs(form), last) == CostAmount(form, last);
    }
  }

  /**
   * With all eight toggles present (as the screen always keeps them), the
   * live total is the analyzer's total cost of the inputs it is given.
   */
  lemma ScreenTotalMatchesAnalyzer(form: BuyerForm)
    requires HasAllToggles(form.costToggles)
    ensures ScreenTotal(form) == MA.TotalCost(ToAnalyzerInputs(form))
  {
    ScreenSumMatches(form, MA.CostKeys);
  }

  /** A toggles object missing a key makes the two totals differ: the screen drops the line, the analyzer keeps it. */
  lemma MissingToggleDisagrees(form: BuyerForm, k: MA.CostKey)
    requires k !in form.costToggles
    ensures !On(form.costToggles, k) && MA.Enabled(form.costToggles, k)
  {
  }

  /** The preview is the analyzer's unrounded margin for the same inputs. */
  lemma PreviewMatchesAnalyzer(form: BuyerForm)
    requires HasAllToggles(form.costToggles)
    ensures PreviewMargin(form, ScreenTotal(form))
         == MA.MarginPercent(MA.BuyerTarget(ToAnalyzerInputs(form)), MA.TotalCost(ToAnalyzerInputs(form)))
  {
    ScreenTotalMatchesAnalyzer(form);
    var inputs := ToAnalyzerInputs(form);
    assert inputs.buyerTargetFob == ParseFloat(form.buyerTargetFob);
    MarginOfParsedTarget(inputs.buyerTargetFob, ScreenTotal(form));
  }

  /** With the target parsed once, the preview's formula and the analyzer's agree. */
  lemma MarginOfParsedTarget(target: Option<real>, total: real)
    ensures PreviewOfTarget(target, total) == MA.MarginPercent(OrDefault(target, 0.0), total)
  {
  }
}
