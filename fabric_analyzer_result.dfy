/**
 * The fabric analyzer's result screen
 * (frontend/src/screens/FabricAnalyzerResultScreen.js): the FOB impact
 * computed from the analysis and the margin field, and the upsert of the
 * analysis into a history list capped at 50 entries.
 */
module FabricAnalyzerResult {
  import opened JsNumber
  import FC = FabricConsumption

  /** The parts of an analysis the screen reads. */
  datatype AnalysisData = AnalysisData(id: string, fabricCostPerPiece: real, otherCosts: Option<real>)

  /** A history entry: the analysis with its margin and FOB impact. */
  datatype SavedAnalysis = SavedAnalysis(data: AnalysisData, profitMargin: real, fobData: FC.FOBImpact)

  type History = seq<SavedAnalysis>

  const HISTORY_LIMIT: nat := 50

  /** The FOB impact: other costs default to 0 and the margin field to 0%. */
  function FobImpactFor(data: AnalysisData, marginText: string): (fob: FC.FOBImpact)
    ensures fob.profitMargin == OrDefault(ParseFloat(marginText), 0.0)
    ensures fob == FC.CalculateFOBImpact(data.fabricCostPerPiece, OrDefault(data.otherCosts, 0.0), fob.profitMargin)
  {
    FC.CalculateFOBImpact(data.fabricCostPerPiece, OrDefault(data.otherCosts, 0.0),
                          OrDefault(ParseFloat(marginText), 0.0))
  }

  /** The record saved: the margin field defaults to 10 here, not 0. */
  function RecordFor(data: AnalysisData, marginText: string): (r: SavedAnalysis)
    ensures r.data == data && r.fobData == FobImpactFor(data, marginText)
    ensures ParseFloat(marginText).Some? && ParseFloat(marginText).value != 0.0
            ==> r.profitMargin == ParseFloat(marginText).value == r.fobData.profitMargin
    ensures ParseFloat(marginText).None? || ParseFloat(marginText).value == 0.0
            ==> r.profitMargin == 10.0
  {
    SavedAnalysis(data, OrDefault(ParseFloat(marginText), 10.0), FobImpactFor(data, marginText))
  }

  /**
   * A cleared or zero margin field prices the FOB at 0% margin but saves
   * 10% as the record's margin.
   */
  lemma ClearedMarginSavedAsTen(data: AnalysisData)
    ensures RecordFor(data, "").profitMargin == 10.0 && RecordFor(data, "").fobData.profitMargin == 0.0
    ensures RecordFor(data, "0").profitMargin == 10.0 && RecordFor(data, "0").fobData.profitMargin == 0.0
  {
    assert SplitSign("") == (false, "");
    assert DigitsValue("0") == 0;
    ParseFloatOfDigits("0");
  }

  // ---------------------------------------------------------------------------
  // History upsert
  // ---------------------------------------------------------------------------

  /** `history.findIndex(item => item.id === id)`. */
  function IndexOfId(history: History, id: string): (i: int)
    ensures -1 <= i < |history|
    ensures i >= 0 ==> history[i].data.id == id && forall j :: 0 <= j < i ==> history[j].data.id != id
    ensures i < 0 ==> forall j :: 0 <= j < |history| ==> history[j].data.id != id
  {
    if history == [] then -1
    else if history[0].data.id == id then 0
    else
      var k := IndexOfId(history[1..], id);
      if k < 0 then -1 else k + 1
  }

  /**
   * The saved list: an entry with the same id is replaced where it stands;
   * otherwise the record goes first and the list is cut to 50.
   */
  function SavedHistory(history: History, record: SavedAnalysis): (saved: History)
    ensures var i := IndexOfId(history, record.data.id);
      i >= 0 ==> |saved| == |history| && saved[i] == record
                 && forall j :: 0 <= j < |history| && j != i ==> saved[j] == history[j]
    ensures IndexOfId(history, record.data.id) < 0 ==>
      |saved| == if |history| + 1 > HISTORY_LIMIT then HISTORY_LIMIT else |history| + 1
    ensures IndexOfId(history, record.data.id) < 0 ==>
      saved[0] == record && saved[1..] == history[..|saved| - 1]
  {
    var i := IndexOfId(history, record.data.id);
    if i >= 0 then history[i := record]
    else
      var grown := [record] + history;
      if |grown| > HISTORY_LIMIT then grown[..HISTORY_LIMIT] else grown
  }

  /** The `findIndex` scan. */
  method FindIndex(history: History, id: string) returns (index: int)
    ensures index == IndexOfId(history, id)
  {
    index := 0;
    while index < |history|
      invariant 0 <= index <= |history|
      invariant forall j :: 0 <= j < index ==> history[j].data.id != id
    {
      if history[index].data.id == id {
        return;
      }
      index := index + 1;
    }
    index := -1;
  }

  /** `saveToHistory`, on the list it loaded: replace in place, or `unshift` and cut to 50. */
  method SaveToHistory(stored: History, data: AnalysisData, marginText: string) returns (history: History)
    ensures history == SavedHistory(stored, RecordFor(data, marginText))
  {
    history := stored;
    var existingIndex := FindIndex(history, data.id);
    var dataToSave := RecordFor(data, marginText);
    if existingIndex >= 0 {
      history := history[existingIndex := dataToSave];
    } else {
      history := [dataToSave] + history;
      if |history| > HISTORY_LIMIT {
        history := history[..HISTORY_LIMIT];
      }
    }
  }

  /** The saved list always holds the record, under its id. */
  lemma SavedHoldsRecord(history: History, record: SavedAnalysis)
    ensures IndexOfId(SavedHistory(history, record), record.data.id) >= 0
    ensures SavedHistory(history, record)[IndexOfId(SavedHistory(history, record), record.data.id)] == record
  {
    var saved := SavedHistory(history, record);
    var i := IndexOfId(history, record.data.id);
    if i >= 0 {
      assert forall j :: 0 <= j < i ==> saved[j] == history[j];
    }
  }

  /** The list never grows past 50 once it is within 50. */
  lemma SavedWithinLimit(history: History, record: SavedAnalysis)
    requires |history| <= HISTORY_LIMIT
    ensures 1 <= |SavedHistory(history, record)| <= HISTORY_LIMIT
  {
  }

  predicate UniqueIds(history: History)
  {
    forall i, j :: 0 <= i < j < |history| ==> history[i].data.id != history[j].data.id
  }

  /** Saving keeps ids unique. */
  lemma SavedKeepsIdsUnique(history: History, record: SavedAnalysis)
    requires UniqueIds(history)
    ensures UniqueIds(SavedHistory(history, record))
  {
    var saved := SavedHistory(history, record);
    var i := IndexOfId(history, record.data.id);
    if i < 0 {
      forall a, b | 0 <= a < b < |saved| ensures saved[a].data.id != saved[b].data.id {
        if a > 0 {
          assert saved[a] == saved[1..][a - 1] == history[a - 1];
        }
        assert saved[b] == saved[1..][b - 1] == history[b - 1];
      }
    }
  }

  /** Saving the same record twice leaves the list as the first save did. */
  lemma SaveIdempotent(history: History, record: SavedAnalysis)
    ensures SavedHistory(SavedHistory(history, record), record) == SavedHistory(history, record)
  {
    var saved := SavedHistory(history, record);
    var i := IndexOfId(history, record.data.id);
    if i >= 0 {
      assert forall j :: 0 <= j < i ==> saved[j] == history[j];
      assert IndexOfId(saved, record.data.id) == i;
      assert saved[i := record] == saved;
    } else {
      assert IndexOfId(saved, record.data.id) == 0;
      assert saved[0 := record] == saved;
    }
  }
}
