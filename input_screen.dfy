/**
 * The cost-sheet input screen (frontend/src/screens/InputScreen.js): the
 * keystroke filter, the validation and per-dozen to per-piece conversion
 * of `handleCalculate`, and the per-piece to per-dozen conversion applied
 * when a saved sheet is loaded for editing.
 */
module InputScreen {
  import opened JsNumber
  import NumericEntry

  /** A form field holds typed text, a number, or a number that is NaN. */
  datatype FormValue = Text(s: string) | Num(x: real) | NotANumber

  type FormData = map<string, FormValue>

  /** `parseFloat(formData[field])`: a missing field (undefined) and NaN read as None. */
  function ReadField(form: FormData, f: string): (v: Option<real>)
    ensures v.Some? ==> f in form
  {
    if f !in form then None
    else match form[f]
      case Text(s) => ParseFloat(s)
      case Num(x) => Some(x)
      case NotANumber => None
  }

  /** `handleNumericChange`: the same filter as the buyer screen's. */
  function HandleNumericChange(form: FormData, name: string, value: string): (r: FormData)
    ensures NumericEntry.AcceptsEntry(value) ==> r == form[name := Text(value)]
    ensures !NumericEntry.AcceptsEntry(value) ==> r == form
  {
    if NumericEntry.AcceptsEntry(value) then form[name := Text(value)] else form
  }

  // ---------------------------------------------------------------------------
  // Field lists
  // ---------------------------------------------------------------------------

  /** The six cost fields the screen shows per dozen and stores per piece. */
  const PER_DOZEN_FIELDS: seq<string> := [
    "aop_print_cost_per_pc", "accessories_cost_per_pc", "cm_cost_per_pc",
    "washing_cost_per_pc", "commercial_cost_per_pc", "testing_cost_per_pc"]

  const COMMON_FIELDS: seq<string> := PER_DOZEN_FIELDS + ["profit_margin_percent"]

  const TSHIRT_FIELDS: seq<string> := [
    "gsm", "body_length", "sleeve_length", "chest_width",
    "wastage_percent", "fabric_allowance",
    "yarn_price_per_kg", "knitting_charge_per_kg", "dyeing_charge_per_kg"]

  const SHIRT_FIELDS: seq<string> := [
    "shirt_body_length", "shirt_sleeve_length", "shirt_chest_width",
    "shirt_collar", "fabric_width", "shirt_wastage_percent", "shirt_fabric_allowance",
    "fabric_price_per_yard"]

  const JEANS_FIELDS: seq<string> := [
    "waist", "inseam", "thigh_width", "front_rise", "back_rise",
    "leg_opening", "denim_fabric_width", "jeans_wastage_percent", "jeans_fabric_allowance",
    "fabric_price_per_yard"]

  /** The required numeric fields: the common seven, then the garment's own list. */
  function NumericFields(garmentType: string): (fields: seq<string>)
    ensures |fields| >= 7 && fields[..7] == COMMON_FIELDS
    ensures garmentType == "tshirt" ==> fields[7..] == TSHIRT_FIELDS
    ensures garmentType == "shirt" ==> fields[7..] == SHIRT_FIELDS
    ensures garmentType == "jeans" ==> fields[7..] == JEANS_FIELDS
    ensures garmentType !in {"tshirt", "shirt", "jeans"} ==> fields == COMMON_FIELDS
  {
    COMMON_FIELDS +
    (if garmentType == "tshirt" then TSHIRT_FIELDS
     else if garmentType == "shirt" then SHIRT_FIELDS
     else if garmentType == "jeans" then JEANS_FIELDS
     else [])
  }

  /** Every garment type validates and converts the six per-dozen cost fields. */
  lemma PerDozenFieldsAlwaysRequired(garmentType: string)
    ensures forall f :: f in PER_DOZEN_FIELDS ==> f in NumericFields(garmentType)
    ensures |NumericFields("tshirt")| == 16 && |NumericFields("shirt")| == 15
    ensures |NumericFields("jeans")| == 17
  {
    var fields := NumericFields(garmentType);
    forall f | f in PER_DOZEN_FIELDS ensures f in fields {
      var i :| 0 <= i < |PER_DOZEN_FIELDS| && PER_DOZEN_FIELDS[i] == f;
      assert fields[i] == COMMON_FIELDS[i] == f;
    }
  }

  // ---------------------------------------------------------------------------
  // handleCalculate: validation and conversion
  // ---------------------------------------------------------------------------

  predicate AllParse(form: FormData, fields: seq<string>)
  {
    forall f :: f in fields ==> ReadField(form, f).Some?
  }

  /** Per-dozen fields are divided by 12, other numeric fields are kept as read. */
  function Converted(f: string, v: real): real
  {
    if f in PER_DOZEN_FIELDS then v / 12.0 else v
  }

  /** The form with each listed field replaced by its converted number, the rest as typed. */
  function Clean(form: FormData, fields: seq<string>): (r: FormData)
    requires AllParse(form, fields)
    ensures r.Keys == form.Keys
  {
    map f | f in form.Keys ::
      if f in fields then Num(Converted(f, ReadField(form, f).value)) else form[f]
  }

  /** The cleaned form of `handleCalculate`: every required field converted. */
  function CleanedData(form: FormData, garmentType: string): (r: FormData)
    requires AllParse(form, NumericFields(garmentType))
    ensures r.Keys == form.Keys
  {
    Clean(form, NumericFields(garmentType))
  }

  datatype CalculateResult = InvalidInput | Cleaned(data: FormData)

  /** The explicit checks for '', '-' and '.' reject nothing that `parseFloat` would accept. */
  lemma PartialEntriesDoNotParse()
    ensures ParseFloat("").None? && ParseFloat("-").None? && ParseFloat(".").None?
  {
    assert SplitSign("") == (false, "");
    assert "-"[1..] == "";
    assert SplitSign("-") == (true, "");
    assert SplitSign(".") == (false, ".");
    assert DigitPrefix(".") == [];
    assert "."[0..] == ".";
    assert "."[1..] == "";
  }

  /**
   * `handleCalculate`: validates the garment's required fields and, when
   * they all parse, converts them.
   */
  method HandleCalculate(form: FormData, garmentType: string) returns (r: CalculateResult)
    ensures r.InvalidInput? <==> !AllParse(form, NumericFields(garmentType))
    ensures r.Cleaned? ==> AllParse(form, NumericFields(garmentType)) && r.data == CleanedData(form, garmentType)
  {
    r := ValidateAndConvert(form, NumericFields(garmentType));
  }

  /**
   * The validation loop of `handleCalculate`: stops at the first listed
   * field that is '', '-', '.' or NaN, and otherwise converts every
   * listed field.
   */
  method ValidateAndConvert(form: FormData, fields: seq<string>) returns (r: CalculateResult)
    ensures r.InvalidInput? <==> !AllParse(form, fields)
    ensures r.Cleaned? ==> AllParse(form, fields) && r.data == Clean(form, fields)
  {
    var cleaned := form;
    for i := 0 to |fields|
      invariant AllParse(form, fields[..i])
      invariant cleaned.Keys == form.Keys
      invariant forall f :: f in form.Keys ==>
        cleaned[f] == (if f in fields[..i] then Num(Converted(f, ReadField(form, f).value)) else form[f])
    {
      var f := fields[i];
      assert fields[..i + 1] == fields[..i] + [f];
      if f in form && (form[f] == Text("") || form[f] == Text("-") || form[f] == Text(".")) {
        PartialEntriesDoNotParse();
        assert ReadField(form, f).None?;
        return InvalidInput;
      }
      var numValue := ReadField(form, f);
      if numValue.None? {
        return InvalidInput;
      }
      if f in PER_DOZEN_FIELDS {
        cleaned := cleaned[f := Num(numValue.value / 12.0)];
      } else {
        cleaned := cleaned[f := Num(numValue.value)];
      }
    }
    assert fields[..|fields|] == fields;
    r := Cleaned(cleaned);
  }

  /** A cleaned form holds numbers in every required field, per piece for the six cost fields. */
  lemma CleanedFieldsAreNumbers(form: FormData, garmentType: string, f: string)
    requires AllParse(form, NumericFields(garmentType))
    requires f in NumericFields(garmentType)
    ensures f in CleanedData(form, garmentType)
    ensures CleanedData(form, garmentType)[f] == Num(
      if f in PER_DOZEN_FIELDS then ReadField(form, f).value / 12.0 else ReadField(form, f).value)
  {
  }

  // ---------------------------------------------------------------------------
  // Loading a saved sheet for editing
  // ---------------------------------------------------------------------------

  /** `parseFloat((value * 12).toFixed(2))`, with `*` coercing text by `Number`. */
  function PerDozenDisplay(v: FormValue): FormValue
  {
    match v
    case Num(x) => Num(RoundTo2(x * 12.0))
    case Text(s) =>
      var n := NumberOfString(s);
      if n.Some? then Num(RoundTo2(n.value * 12.0)) else NotANumber
    case NotANumber => NotANumber
  }

  /** The displayed form of a saved sheet: present per-dozen fields converted, the rest as saved. */
  function LoadedForEdit(inputs: FormData): (r: FormData)
    ensures r.Keys == inputs.Keys
  {
    map f | f in inputs.Keys :: if f in PER_DOZEN_FIELDS then PerDozenDisplay(inputs[f]) else inputs[f]
  }

  /** The edit-load effect: the six per-dozen fields rewritten in turn, when present. */
  method EditLoad(inputs: FormData) returns (display: FormData)
    ensures display == LoadedForEdit(inputs)
  {
    display := inputs;
    for i := 0 to |PER_DOZEN_FIELDS|
      invariant display.Keys == inputs.Keys
      invariant forall f :: f in inputs.Keys ==>
        display[f] == (if f in PER_DOZEN_FIELDS[..i] then PerDozenDisplay(inputs[f]) else inputs[f])
    {
      var f := PER_DOZEN_FIELDS[i];
      assert PER_DOZEN_FIELDS[..i + 1] == PER_DOZEN_FIELDS[..i] + [f];
      assert f !in PER_DOZEN_FIELDS[..i];
      if f in display {
        display := display[f := PerDozenDisplay(display[f])];
      }
    }
    assert PER_DOZEN_FIELDS[..|PER_DOZEN_FIELDS|] == PER_DOZEN_FIELDS;
  }

  /**
   * Loading a calculated sheet and calculating again gives back each
   * per-piece cost to within half a cent per dozen (0.005/12), and every
   * other required field exactly.
   */
  lemma LoadThenCalculate(inputs: FormData, garmentType: string)
    requires forall f :: f in NumericFields(garmentType) ==> f in inputs && inputs[f].Num?
    ensures AllParse(LoadedForEdit(inputs), NumericFields(garmentType))
    ensures forall f :: f in NumericFields(garmentType) && f in PER_DOZEN_FIELDS ==>
      CleanedData(LoadedForEdit(inputs), garmentType)[f].Num? &&
      -0.005 / 12.0 < CleanedData(LoadedForEdit(inputs), garmentType)[f].x - inputs[f].x <= 0.005 / 12.0
    ensures forall f :: f in NumericFields(garmentType) && f !in PER_DOZEN_FIELDS ==>
      CleanedData(LoadedForEdit(inputs), garmentType)[f] == inputs[f]
    ensures forall f :: f in inputs && f !in NumericFields(garmentType) ==>
      CleanedData(LoadedForEdit(inputs), garmentType)[f] == inputs[f]
  {
    var fields := NumericFields(garmentType);
    var loaded := LoadedForEdit(inputs);
    assert AllParse(loaded, fields);
    var cleaned := CleanedData(loaded, garmentType);
    forall f | f in fields && f in PER_DOZEN_FIELDS
      ensures cleaned[f].Num? && -0.005 / 12.0 < cleaned[f].x - inputs[f].x <= 0.005 / 12.0
    {
      var x := inputs[f].x;
      RoundTo2Error(x * 12.0);
      RoundTripStep(x, RoundTo2(x * 12.0));
    }
    PerDozenFieldsAlwaysRequired(garmentType);
  }

  lemma RoundTripStep(x: real, y: real)
    requires -0.005 < y - x * 12.0 <= 0.005
    ensures -0.005 / 12.0 < y / 12.0 - x <= 0.005 / 12.0
  {
    assert y / 12.0 - x == (y - x * 12.0) / 12.0;
  }
}
