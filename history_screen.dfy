/**
 * The history screen (frontend/src/screens/HistoryScreen.js): selecting
 * entries, deleting one or the selected fabric analyses, and the FOB per
 * piece shown for a saved cost sheet.
 */
module HistoryScreen {
  import opened JsNumber
  import FAR = FabricAnalyzerResult

  /** `Array.prototype.filter`: the elements that pass, in their order. */
  function Filter<T(!new)>(s: seq<T>, keep: T -> bool): (r: seq<T>)
    ensures |r| <= |s|
    ensures forall x :: x in r <==> x in s && keep(x)
  {
    if s == [] then []
    else (if keep(s[0]) then [s[0]] else []) + Filter(s[1..], keep)
  }

  lemma {:induction false} FilterAppend<T(!new)>(a: seq<T>, b: seq<T>, keep: T -> bool)
    ensures Filter(a + b, keep) == Filter(a, keep) + Filter(b, keep)
  {
    if a == [] {
      assert a + b == b;
    } else {
      assert (a + b)[1..] == a[1..] + b;
      FilterAppend(a[1..], b, keep);
    }
  }

  lemma {:induction false} FilterAllPass<T(!new)>(s: seq<T>, keep: T -> bool)
    requires forall x :: x in s ==> keep(x)
    ensures Filter(s, keep) == s
  {
    if s != [] {
      FilterAllPass(s[1..], keep);
    }
  }

  predicate NoDuplicates(s: seq<string>)
  {
    forall i, j :: 0 <= i < j < |s| ==> s[i] != s[j]
  }

  lemma {:induction false} FilterKeepsNoDuplicates(s: seq<string>, keep: string -> bool)
    requires NoDuplicates(s)
    ensures NoDuplicates(Filter(s, keep))
  {
    if s != [] {
      FilterKeepsNoDuplicates(s[1..], keep);
      var rest := Filter(s[1..], keep);
      assert s[0] !in s[1..];
      if keep(s[0]) {
        var r := [s[0]] + rest;
        forall i, j | 0 <= i < j < |r| ensures r[i] != r[j] {
          if i == 0 {
            assert r[j] == rest[j - 1] && rest[j - 1] in rest;
          } else {
            assert r[i] == rest[i - 1] && r[j] == rest[j - 1];
          }
        }
      }
    }
  }

  // ---------------------------------------------------------------------------
  // Selection
  // ---------------------------------------------------------------------------

  /** `toggleSelection`: drop the id if selected, else append it. */
  function ToggleSelection(selected: seq<string>, id: string): (r: seq<string>)
    ensures id in r <==> id !in selected
    ensures forall x :: x != id ==> (x in r <==> x in selected)
  {
    if id in selected then Filter(selected, i => i != id) else selected + [id]
  }

  /** The selection never holds an id twice. */
  lemma ToggleKeepsNoDuplicates(selected: seq<string>, id: string)
    requires NoDuplicates(selected)
    ensures NoDuplicates(ToggleSelection(selected, id))
  {
    if id in selected {
      FilterKeepsNoDuplicates(selected, i => i != id);
    }
  }

  /** Toggling twice restores every membership, and the very list when the id was not selected. */
  lemma ToggleTwice(selected: seq<string>, id: string)
    ensures forall x :: x in ToggleSelection(ToggleSelection(selected, id), id) <==> x in selected
    ensures id !in selected ==> ToggleSelection(ToggleSelection(selected, id), id) == selected
  {
    if id !in selected {
      var keep := (i: string) => i != id;
      FilterAppend(selected, [id], keep);
      FilterAllPass(selected, keep);
      assert Filter([id], keep) == [];
    }
  }

  // ---------------------------------------------------------------------------
  // Deleting fabric analyses
  // ---------------------------------------------------------------------------

  /** `handleDeleteFabric`: keep every entry whose id differs. */
  function DeleteById(history: FAR.History, id: string): (r: FAR.History)
    ensures forall e :: e in r <==> e in history && e.data.id != id
  {
    Filter(history, (e: FAR.SavedAnalysis) => e.data.id != id)
  }

  /** `handleDeleteSelected` on the fabric tab: keep every entry whose id is not selected. */
  function DeleteSelected(history: FAR.History, selected: seq<string>): (r: FAR.History)
    ensures forall e :: e in r <==> e in history && e.data.id !in selected
  {
    Filter(history, (e: FAR.SavedAnalysis) => e.data.id !in selected)
  }

  /** Deleting works entry by entry, so the survivors keep their order. */
  lemma DeletePreservesOrder(a: FAR.History, b: FAR.History, id: string, selected: seq<string>)
    ensures DeleteById(a + b, id) == DeleteById(a, id) + DeleteById(b, id)
    ensures DeleteSelected(a + b, selected) == DeleteSelected(a, selected) + DeleteSelected(b, selected)
  {
    FilterAppend(a, b, (e: FAR.SavedAnalysis) => e.data.id != id);
    FilterAppend(a, b, (e: FAR.SavedAnalysis) => e.data.id !in selected);
  }

  /** Deleting an id no entry has, or a selection no entry is in, leaves the list as it was. */
  lemma DeleteAbsentIsIdentity(history: FAR.History, id: string, selected: seq<string>)
    ensures (forall e :: e in history ==> e.data.id != id) ==> DeleteById(history, id) == history
    ensures (forall e :: e in history ==> e.data.id !in selected) ==> DeleteSelected(history, selected) == history
  {
    if forall e :: e in history ==> e.data.id != id {
      FilterAllPass(history, (e: FAR.SavedAnalysis) => e.data.id != id);
    }
    if forall e :: e in history ==> e.data.id !in selected {
      FilterAllPass(history, (e: FAR.SavedAnalysis) => e.data.id !in selected);
    }
  }

  /** Deleting the only selected id is the single delete. */
  lemma DeleteOneSelected(history: FAR.History, id: string)
    ensures DeleteSelected(history, [id]) == DeleteById(history, id)
  {
    var one := (e: FAR.SavedAnalysis) => e.data.id !in [id];
    var single := (e: FAR.SavedAnalysis) => e.data.id != id;
    assert forall e :: one(e) == single(e);
    FilterSameTest(history, one, single);
  }

  lemma {:induction false} FilterSameTest<T(!new)>(s: seq<T>, p: T -> bool, q: T -> bool)
    requires forall x :: p(x) == q(x)
    ensures Filter(s, p) == Filter(s, q)
  {
    if s != [] {
      FilterSameTest(s[1..], p, q);
    }
  }

  /** After saving a record and deleting its id, no entry with that id is left and the list is shorter. */
  lemma DeleteAfterSave(history: FAR.History, record: FAR.SavedAnalysis)
    ensures forall e :: e in DeleteById(FAR.SavedHistory(history, record), record.data.id) ==> e.data.id != record.data.id
    ensures |DeleteById(FAR.SavedHistory(history, record), record.data.id)| < |FAR.SavedHistory(history, record)|
  {
    var saved := FAR.SavedHistory(history, record);
    FAR.SavedHoldsRecord(history, record);
    var i := FAR.IndexOfId(saved, record.data.id);
    var keep := (e: FAR.SavedAnalysis) => e.data.id != record.data.id;
    assert saved == saved[..i] + [saved[i]] + saved[i + 1..];
    FilterAppend(saved[..i] + [saved[i]], saved[i + 1..], keep);
    FilterAppend(saved[..i], [saved[i]], keep);
    assert Filter([saved[i]], keep) == [];
  }

  // ---------------------------------------------------------------------------
  // FOB per piece shown for a cost sheet
  // ---------------------------------------------------------------------------

  /** `(final_fob_per_doz || final_fob_per_pc * 12) / 12`; None is NaN. */
  function FobPerPcDisplay(perDoz: Option<real>, perPc: Option<real>): (r: Option<real>)
    ensures perDoz.Some? && perDoz.value != 0.0 ==> r == Some(perDoz.value / 12.0)
    ensures perDoz == None || perDoz == Some(0.0) ==> r == perPc
  {
    if perDoz.Some? && perDoz.value != 0.0 then Some(perDoz.value / 12.0)
    else if perPc.Some? then Some(perPc.value * 12.0 / 12.0)
    else None
  }

  /** For a sheet whose dozen price is twelve piece prices, both routes show the piece price. */
  lemma FobPerPcConsistent(perPc: real)
    ensures FobPerPcDisplay(Some(12.0 * perPc), Some(perPc)) == Some(perPc)
    ensures FobPerPcDisplay(None, Some(perPc)) == Some(perPc)
  {
  }
}
