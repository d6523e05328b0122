// Curve bookkeeping of the plotting page (WT_PlottingWidget,
// wt_plottingwidget.cpp): the curve map keyed by name, the curve list beside
// it, the curve currently shown, renaming through the chart title, deleting,
// saving moved data back, and the two-click selection of an export range.

module Plotting {
  import opened Common
  import Export

  /**
   * The parts of a saved curve the modelled operations read or write.
   * Styles, colours, column indices and source file names are left out.
   */
  datatype CurveInfo = CurveInfo(
    name: string,
    legendName: string,
    curveType: int,          // 0 single, 1 pressure/rate, 2 derivative
    xData: seq<real>,
    yData: seq<real>,
    x2Data: seq<real>,
    y2Data: seq<real>,
    prodGraphType: int,
    testType: int,
    initialPressure: real,
    lSpacing: real,
    isSmooth: bool,
    smoothFactor: int,
    derivData: seq<real>)

  /** The curve a lookup of a missing name yields: empty texts and vectors, zero numbers. */
  function DefaultCurve(): CurveInfo
  {
    CurveInfo("", "", 0, [], [], [], [], 0, 0, 0.0, 0.0, false, 0, [])
  }

  /** Every curve is filed under its own name. */
  predicate NamesMatchKeys(curves: map<string, CurveInfo>)
  {
    forall k :: k in curves ==> curves[k].name == k
  }

  predicate NoDuplicates(s: seq<string>)
  {
    forall i, j :: 0 <= i < j < |s| ==> s[i] != s[j]
  }

  /** The curve list shows each key of the curve map exactly once. */
  predicate ListMatchesKeys(names: seq<string>, curves: map<string, CurveInfo>)
  {
    && NoDuplicates(names)
    && (forall i :: 0 <= i < |names| ==> names[i] in curves)
    && (forall k :: k in curves ==> k in names)
  }

  /** The first list position holding `x`, as an exact-match search of the list returns it. */
  function FirstIndexOf(s: seq<string>, x: string): (r: Option<nat>)
    ensures r.Some? ==> r.value < |s| && s[r.value] == x && forall j :: 0 <= j < r.value ==> s[j] != x
    ensures r.None? <==> x !in s
  {
    if s == [] then None
    else if s[0] == x then Some(0)
    else
      var rest := FirstIndexOf(s[1..], x);
      assert x in s[1..] ==> x in s;
      assert x in s && s[0] != x ==> x in s[1..];
      if rest.None? then None else Some(rest.value + 1)
  }

  // ---------------------------------------------------------------------------
  // Rename
  // ---------------------------------------------------------------------------

  /** The curve map after the shown curve is taken out, renamed and put back under its new title. */
  function RenamedCurves(curves: map<string, CurveInfo>, current: string, newTitle: string): map<string, CurveInfo>
  {
    var info := if current in curves then curves[current] else DefaultCurve();
    (curves - {current})[newTitle := info.(name := newTitle)]
  }

  /**
   * The curve list after a rename: the selected item when it shows the old
   * name, otherwise the first item showing it, now shows the new title.
   */
  function RenamedList(names: seq<string>, selected: Option<nat>, current: string, newTitle: string): seq<string>
  {
    if selected.Some? && selected.value < |names| && names[selected.value] == current then
      names[selected.value := newTitle]
    else
      var found := FirstIndexOf(names, current);
      if found.None? then names else names[found.value := newTitle]
  }

  /**
   * A rename to a free title moves exactly one entry: the old key is gone,
   * the new key holds the same curve with its name updated, and every other
   * entry is untouched.
   */
  lemma RenameMovesEntry(curves: map<string, CurveInfo>, current: string, newTitle: string)
    requires current in curves && newTitle !in curves
    ensures var r := RenamedCurves(curves, current, newTitle);
      && current !in r
      && newTitle in r && r[newTitle] == curves[current].(name := newTitle)
      && (forall k :: k != current && k != newTitle ==> (k in r <==> k in curves))
      && (forall k :: k in curves && k != current ==> r[k] == curves[k])
      && |r| == |curves|
  {
    var r := RenamedCurves(curves, current, newTitle);
    assert r.Keys == curves.Keys - {current} + {newTitle};
    assert |curves.Keys - {current}| == |curves.Keys| - 1;
  }

  /** Renaming keeps every curve filed under its own name. */
  lemma RenameKeepsNamesMatchingKeys(curves: map<string, CurveInfo>, current: string, newTitle: string)
    requires NamesMatchKeys(curves)
    ensures NamesMatchKeys(RenamedCurves(curves, current, newTitle))
  {
  }

  /** Renaming back to the old title restores the curve map. */
  lemma RenameBackRestores(curves: map<string, CurveInfo>, current: string, newTitle: string)
    requires NamesMatchKeys(curves) && current in curves && newTitle !in curves
    ensures RenamedCurves(RenamedCurves(curves, current, newTitle), newTitle, current) == curves
  {
    var r := RenamedCurves(RenamedCurves(curves, current, newTitle), newTitle, current);
    assert r.Keys == curves.Keys;
  }

  /** With the list matching the keys, a rename relabels exactly the one item showing the old name. */
  lemma {:induction false} RenamedListRelabelsOneItem(names: seq<string>, curves: map<string, CurveInfo>,
                                                      selected: Option<nat>, current: string, newTitle: string)
    requires ListMatchesKeys(names, curves) && current in curves
    ensures exists p :: 0 <= p < |names| && names[p] == current
                        && RenamedList(names, selected, current, newTitle) == names[p := newTitle]
  {
    var found := FirstIndexOf(names, current);
    var p := found.value;
    assert names[p] == current && RenamedList(names, selected, current, newTitle) == names[p := newTitle];
  }

  /** A rename to a free title keeps the list showing each key once. */
  lemma RenameKeepsListMatchingKeys(names: seq<string>, curves: map<string, CurveInfo>,
                                    selected: Option<nat>, current: string, newTitle: string)
    requires ListMatchesKeys(names, curves) && current in curves && newTitle !in curves
    ensures ListMatchesKeys(RenamedList(names, selected, current, newTitle), RenamedCurves(curves, current, newTitle))
  {
    RenamedListRelabelsOneItem(names, curves, selected, current, newTitle);
    var p :| 0 <= p < |names| && names[p] == current
      && RenamedList(names, selected, current, newTitle) == names[p := newTitle];
    var names' := names[p := newTitle];
    var curves' := RenamedCurves(curves, current, newTitle);
    forall i | 0 <= i < |names'| ensures names'[i] in curves' {
      if i != p {
        assert names[i] != current;
      }
    }
    forall k | k in curves' ensures k in names' {
      if k != newTitle {
        var i :| 0 <= i < |names| && names[i] == k;
        assert names'[i] == k;
      } else {
        assert names'[p] == k;
      }
    }
  }

  // ---------------------------------------------------------------------------
  // Delete
  // ---------------------------------------------------------------------------

  /** The list without the item at `row`. */
  function RemoveAt(names: seq<string>, row: nat): (r: seq<string>)
    requires row < |names|
    ensures |r| == |names| - 1
    ensures forall i :: 0 <= i < row ==> r[i] == names[i]
    ensures forall i :: row <= i < |r| ==> r[i] == names[i + 1]
  {
    names[..row] + names[row + 1..]
  }

  /** Deleting the item at `row` and its curve keeps the list showing each remaining key once. */
  lemma {:induction false} DeleteKeepsListMatchingKeys(names: seq<string>, curves: map<string, CurveInfo>, row: nat)
    requires ListMatchesKeys(names, curves) && row < |names|
    ensures ListMatchesKeys(RemoveAt(names, row), curves - {names[row]})
  {
    var r := RemoveAt(names, row);
    var name := names[row];
    forall i, j | 0 <= i < j < |r| ensures r[i] != r[j] {
      var i' := if i < row then i else i + 1;
      var j' := if j < row then j else j + 1;
      assert r[i] == names[i'] && r[j] == names[j'] && i' < j';
    }
    forall i | 0 <= i < |r| ensures r[i] in curves - {name} {
      var i' := if i < row then i else i + 1;
      assert r[i] == names[i'] && i' != row;
    }
    forall k | k in curves - {name} ensures k in r {
      var i :| 0 <= i < |names| && names[i] == k;
      assert i != row;
      if i < row {
        assert r[i] == k;
      } else {
        assert r[i - 1] == k;
      }
    }
  }

  // ---------------------------------------------------------------------------
  // Filing curves: loading a project and adding a new curve
  // ---------------------------------------------------------------------------

  /** The names of the curves, in order: the texts the list shows after they are added. */
  function NamesOf(plots: seq<CurveInfo>): (names: seq<string>)
    ensures |names| == |plots|
    ensures forall i :: 0 <= i < |plots| ==> names[i] == plots[i].name
  {
    if plots == [] then [] else NamesOf(plots[..|plots| - 1]) + [plots[|plots| - 1].name]
  }

  /** The curve map after inserting the curves one after another, each under its own name. */
  function LoadedCurves(plots: seq<CurveInfo>): map<string, CurveInfo>
  {
    if plots == [] then map[] else LoadedCurves(plots[..|plots| - 1])[plots[|plots| - 1].name := plots[|plots| - 1]]
  }

  /**
   * Inserting curves one after another files each under its name, keeps a
   * key exactly for every name that occurs, and leaves under a repeated name
   * the last curve that has it.
   */
  lemma {:induction false} LoadedCurvesFileByName(plots: seq<CurveInfo>)
    ensures NamesMatchKeys(LoadedCurves(plots))
    ensures forall k :: k in LoadedCurves(plots) <==> k in NamesOf(plots)
    ensures forall i :: 0 <= i < |plots| && (forall j :: i < j < |plots| ==> plots[j].name != plots[i].name) ==>
      LoadedCurves(plots)[plots[i].name] == plots[i]
  {
    if plots != [] {
      var init, last := plots[..|plots| - 1], plots[|plots| - 1];
      LoadedCurvesFileByName(init);
      assert NamesOf(plots) == NamesOf(init) + [last.name];
      forall i | 0 <= i < |plots| && (forall j :: i < j < |plots| ==> plots[j].name != plots[i].name)
        ensures LoadedCurves(plots)[plots[i].name] == plots[i]
      {
        if i < |plots| - 1 {
          assert plots[i] == init[i];
          assert plots[i].name != last.name;
        }
      }
    }
  }

  /** Curves with distinct names load into a list that shows each key of the map exactly once. */
  lemma LoadDistinctNamesMatchList(plots: seq<CurveInfo>)
    requires NoDuplicates(NamesOf(plots))
    ensures ListMatchesKeys(NamesOf(plots), LoadedCurves(plots))
  {
    LoadedCurvesFileByName(plots);
  }

  /** Adding a curve under a free name keeps the list showing each key once. */
  lemma AddFreshNameKeepsListMatchingKeys(names: seq<string>, curves: map<string, CurveInfo>, info: CurveInfo)
    requires ListMatchesKeys(names, curves) && info.name !in curves
    ensures ListMatchesKeys(names + [info.name], curves[info.name := info])
  {
    var names' := names + [info.name];
    forall i, j | 0 <= i < j < |names'| ensures names'[i] != names'[j] {
      if j == |names| {
        assert names[i] in curves;
      }
    }
  }

  /**
   * Adding a curve under a name the map already has replaces that curve
   * without a check, so the map does not grow while the list shows the name
   * a second time.
   */
  lemma AddTakenNameRepeatsItem(names: seq<string>, curves: map<string, CurveInfo>, info: CurveInfo)
    requires info.name in names && info.name in curves
    ensures |curves[info.name := info]| == |curves|
    ensures curves[info.name := info][info.name] == info
    ensures !NoDuplicates(names + [info.name])
  {
    var i :| 0 <= i < |names| && names[i] == info.name;
    assert (names + [info.name])[i] == (names + [info.name])[|names|];
    assert curves[info.name := info].Keys == curves.Keys;
  }

  // ---------------------------------------------------------------------------
  // States the program reaches with repeated names
  // ---------------------------------------------------------------------------

  /** Deleting one of two items that show the same name leaves the other one showing a name no curve is filed under. */
  lemma DeleteTwinLeavesOrphan(names: seq<string>, curves: map<string, CurveInfo>, row: nat, twin: nat)
    requires row < |names| && twin < |names| && twin != row && names[twin] == names[row]
    ensures names[row] in RemoveAt(names, row)
    ensures names[row] !in curves - {names[row]}
  {
    var r := RemoveAt(names, row);
    if twin < row {
      assert r[twin] == names[row];
    } else {
      assert r[twin - 1] == names[row];
    }
  }

  /** A rename relabels at most one item: the first one showing the old name, or the selected one. */
  lemma RenamedListShape(names: seq<string>, selected: Option<nat>, current: string, newTitle: string)
    ensures var r := RenamedList(names, selected, current, newTitle);
      r == names || exists p :: 0 <= p < |names| && names[p] == current && r == names[p := newTitle]
  {
  }

  /** When two items show the shown curve's name, a rename to a free title leaves one of them showing a name no curve has. */
  lemma RenameTwinLeavesOldItem(names: seq<string>, curves: map<string, CurveInfo>, selected: Option<nat>,
                                current: string, newTitle: string, p: nat, q: nat)
    requires p < q < |names| && names[p] == current && names[q] == current && newTitle != current
    ensures current in RenamedList(names, selected, current, newTitle)
    ensures current !in RenamedCurves(curves, current, newTitle)
  {
    RenamedListShape(names, selected, current, newTitle);
    var r := RenamedList(names, selected, current, newTitle);
    if r != names {
      var k :| 0 <= k < |names| && names[k] == current && r == names[k := newTitle];
      if k == p {
        assert r[q] == current;
      } else {
        assert r[p] == current;
      }
    } else {
      assert r[p] == current;
    }
  }

  /**
   * The curve editor's rename to a name another curve already has: the
   * other curve is overwritten and the map loses one entry.
   */
  lemma EditorRenameOverwritesTakenName(curves: map<string, CurveInfo>, name: string, newName: string)
    requires name in curves && newName in curves && newName != name
    ensures var r := RenamedCurves(curves, name, newName);
      |r| == |curves| - 1 && name !in r && r[newName] == curves[name].(name := newName)
  {
    var r := RenamedCurves(curves, name, newName);
    assert r.Keys == curves.Keys - {name};
  }

  /** Changing the shown curve's title through the chart renames the curve but not its key. */
  lemma TitleUpdateUnfilesCurve(curves: map<string, CurveInfo>, current: string, title: string)
    requires NamesMatchKeys(curves) && current in curves && title != current
    ensures !NamesMatchKeys(curves[current := curves[current].(name := title)])
  {
    var c := curves[current := curves[current].(name := title)];
    assert c[current].name == title;
  }

  // ---------------------------------------------------------------------------
  // The widget
  // ---------------------------------------------------------------------------

  /** The graph whose data a move changed: the pressure graph, the production graph, or another one. */
  datatype MovedGraph = PressureGraph | ProductionGraph | OtherGraph

  /** The buttons of the export prompt. */
  datatype ExportChoice = AllData | PartialData | Cancelled

  /** Copies a graph's points into a key vector and a value vector. */
  method SplitPoints(data: seq<Point>) returns (xs: seq<real>, ys: seq<real>)
    ensures xs == Xs(data) && ys == Ys(data)
  {
    xs, ys := [], [];
    var i := 0;
    while i < |data|
      invariant 0 <= i <= |data|
      invariant xs == Xs(data[..i]) && ys == Ys(data[..i])
    {
      assert data[..i + 1] == data[..i] + [data[i]];
      XsYsSnoc(data[..i], data[i]);
      xs := xs + [data[i].x];
      ys := ys + [data[i].y];
      i := i + 1;
    }
    assert data[..|data|] == data;
  }

  class PlottingWidget {
    var curves: map<string, CurveInfo>
    /** Texts of the curve list, top to bottom. */
    var listNames: seq<string>
    /** Name of the curve shown on the main chart, "" when none. */
    var currentCurve: string
    var selectingForExport: bool
    var selectionStep: int
    var exportStart: real
    var exportEnd: real

    /**
     * What every operation keeps: a shown curve is in the map, and a running
     * selection is at its first or second click. The map keys, the curve
     * names and the list texts may disagree (see `LoadProjectData`,
     * `AddCurve` and `UpdateChartTitle`).
     */
    ghost predicate Valid()
      reads this
    {
      && (currentCurve != "" ==> currentCurve in curves)
      && (selectingForExport ==> selectionStep == 1 || selectionStep == 2)
    }

    constructor ()
      ensures Valid()
      ensures curves == map[] && listNames == [] && currentCurve == ""
      ensures !selectingForExport && selectionStep == 0 && exportStart == 0.0 && exportEnd == 0.0
    {
      curves := map[];
      listNames := [];
      currentCurve := "";
      selectingForExport := false;
      selectionStep := 0;
      exportStart := 0.0;
      exportEnd := 0.0;
    }

    /**
     * Loading a project: the map and the list are cleared, every saved curve
     * is inserted under its name and listed, and the first item is shown.
     * Saved curves with the same name leave the last one in the map and the
     * name listed once per curve.
     */
    method LoadProjectData(plots: seq<CurveInfo>)
      requires Valid()
      modifies this
      ensures Valid()
      ensures curves == LoadedCurves(plots) && listNames == NamesOf(plots)
      ensures currentCurve == if plots == [] then "" else plots[0].name
      ensures selectingForExport == old(selectingForExport) && selectionStep == old(selectionStep)
      ensures exportStart == old(exportStart) && exportEnd == old(exportEnd)
    {
      curves := map[];
      listNames := [];
      currentCurve := "";
      var i := 0;
      while i < |plots|
        invariant 0 <= i <= |plots|
        invariant curves == LoadedCurves(plots[..i]) && listNames == NamesOf(plots[..i])
        invariant currentCurve == ""
        invariant selectingForExport == old(selectingForExport) && selectionStep == old(selectionStep)
        invariant exportStart == old(exportStart) && exportEnd == old(exportEnd)
      {
        assert plots[..i + 1][..i] == plots[..i];
        curves := curves[plots[i].name := plots[i]];
        listNames := listNames + [plots[i].name];
        i := i + 1;
      }
      assert plots[..|plots|] == plots;
      if |listNames| > 0 {
        LoadedCurvesFileByName(plots);
        assert listNames[0] in NamesOf(plots);
        var shown := OnCurveDoubleClicked(listNames[0]);
      }
    }

    /**
     * A curve made by one of the creation dialogs is inserted under its name,
     * without checking that the name is free, and listed; unless it opens in
     * a new window, it becomes the shown curve.
     */
    method AddCurve(info: CurveInfo, newWindow: bool)
      requires Valid()
      modifies this
      ensures Valid()
      ensures curves == old(curves)[info.name := info] && listNames == old(listNames) + [info.name]
      ensures currentCurve == if newWindow then old(currentCurve) else info.name
      ensures selectingForExport == old(selectingForExport) && selectionStep == old(selectionStep)
      ensures exportStart == old(exportStart) && exportEnd == old(exportEnd)
    {
      curves := curves[info.name := info];
      listNames := listNames + [info.name];
      if !newWindow {
        var shown := OnCurveDoubleClicked(listNames[|listNames| - 1]);
      }
    }

    /**
     * The chart title is set from outside: the shown curve, if it is in the
     * map, takes the title as its name under its old key, and the selected
     * list item, if any, shows the title.
     */
    method UpdateChartTitle(title: string, selected: Option<nat>)
      requires Valid()
      requires selected.Some? ==> selected.value < |listNames|
      modifies this
      ensures Valid()
      ensures currentCurve == old(currentCurve)
      ensures old(currentCurve) !in old(curves) ==> curves == old(curves) && listNames == old(listNames)
      ensures old(currentCurve) in old(curves) ==>
        curves == old(curves)[old(currentCurve) := old(curves)[old(currentCurve)].(name := title)]
        && listNames == if selected.Some? then old(listNames)[selected.value := title] else old(listNames)
      ensures selectingForExport == old(selectingForExport) && selectionStep == old(selectionStep)
      ensures exportStart == old(exportStart) && exportEnd == old(exportEnd)
    {
      if currentCurve in curves {
        curves := curves[currentCurve := curves[currentCurve].(name := title)];
        if selected.Some? {
          listNames := listNames[selected.value := title];
        }
      }
    }

    /**
     * The rename done by the curve editor: when the selected item's curve is
     * in the map and the dialog gives it another name, the curve is taken out
     * and put back under the new name, whether or not that name is free; the
     * item shows the new name, and the curve becomes the shown one.
     */
    method EditorRename(selected: Option<nat>, newName: string)
      requires Valid()
      requires selected.Some? ==> selected.value < |listNames|
      modifies this
      ensures Valid()
      ensures var name := if selected.Some? then old(listNames)[selected.value] else "";
        if selected.None? || name !in old(curves) || old(curves)[name].name == newName then
          curves == old(curves) && listNames == old(listNames) && currentCurve == old(currentCurve)
        else
          curves == RenamedCurves(old(curves), name, newName)
          && listNames == old(listNames)[selected.value := newName] && currentCurve == newName
      ensures selectingForExport == old(selectingForExport) && selectionStep == old(selectionStep)
      ensures exportStart == old(exportStart) && exportEnd == old(exportEnd)
    {
      if selected.None? {
        return;
      }
      var name := listNames[selected.value];
      if name !in curves {
        return;
      }
      var info := curves[name];
      if info.name != newName {
        curves := curves - {name};
        info := info.(name := newName);
        listNames := listNames[selected.value := newName];
        name := info.name;
        curves := curves[name := info];
        currentCurve := name;
      }
    }

    /**
     * The chart title was edited. With no curve shown or an unchanged title
     * nothing happens; a title another curve already has is refused and the
     * old title is to be put back (`restoredTitle`); otherwise the shown curve
     * is renamed in the map and in the list and stays the shown curve.
     */
    method OnChartTitleChanged(newTitle: string, selected: Option<nat>) returns (restoredTitle: Option<string>)
      requires Valid()
      requires selected.Some? ==> selected.value < |listNames|
      modifies this
      ensures Valid()
      ensures selectingForExport == old(selectingForExport) && selectionStep == old(selectionStep)
      ensures exportStart == old(exportStart) && exportEnd == old(exportEnd)
      ensures old(currentCurve) == "" || newTitle == old(currentCurve) ==>
        curves == old(curves) && listNames == old(listNames) && currentCurve == old(currentCurve) && restoredTitle == None
      ensures old(currentCurve) != "" && newTitle != old(currentCurve) && newTitle in old(curves) ==>
        curves == old(curves) && listNames == old(listNames) && currentCurve == old(currentCurve)
        && restoredTitle == Some(old(currentCurve))
      ensures old(currentCurve) != "" && newTitle != old(currentCurve) && newTitle !in old(curves) ==>
        curves == RenamedCurves(old(curves), old(currentCurve), newTitle)
        && listNames == RenamedList(old(listNames), selected, old(currentCurve), newTitle)
        && currentCurve == newTitle && restoredTitle == None
    {
      restoredTitle := None;
      if currentCurve == "" {
        return;
      }
      if newTitle == currentCurve {
        return;
      }
      if newTitle in curves {
        restoredTitle := Some(currentCurve);
        return;
      }
      var info := if currentCurve in curves then curves[currentCurve] else DefaultCurve();
      curves := curves - {currentCurve};
      info := info.(name := newTitle);
      curves := curves[newTitle := info];
      if selected.Some? && listNames[selected.value] == currentCurve {
        listNames := listNames[selected.value := newTitle];
      } else {
        var found := FirstIndexOf(listNames, currentCurve);
        if found.Some? {
          listNames := listNames[found.value := newTitle];
        }
      }
      currentCurve := newTitle;
    }

    /** A curve-list item was double-clicked: its curve, if still in the map, becomes the shown curve. */
    method OnCurveDoubleClicked(name: string) returns (shown: Option<CurveInfo>)
      requires Valid()
      modifies this
      ensures Valid()
      ensures curves == old(curves) && listNames == old(listNames)
      ensures selectingForExport == old(selectingForExport) && selectionStep == old(selectionStep)
      ensures exportStart == old(exportStart) && exportEnd == old(exportEnd)
      ensures name in curves ==> currentCurve == name && shown == Some(curves[name])
      ensures name !in curves ==> currentCurve == old(currentCurve) && shown == None
    {
      if name !in curves {
        return None;
      }
      currentCurve := name;
      shown := Some(curves[name]);
    }

    /**
     * The delete button: with an item selected and the deletion confirmed,
     * its curve leaves the map and the list, and the chart is cleared
     * (`clearedChart`) and nothing is shown any more when it was the shown curve.
     */
    method OnDeleteClicked(selected: Option<nat>, confirmed: bool) returns (clearedChart: bool)
      requires Valid()
      requires selected.Some? ==> selected.value < |listNames|
      modifies this
      ensures Valid()
      ensures selectingForExport == old(selectingForExport) && selectionStep == old(selectionStep)
      ensures exportStart == old(exportStart) && exportEnd == old(exportEnd)
      ensures selected.None? || !confirmed ==>
        curves == old(curves) && listNames == old(listNames) && currentCurve == old(currentCurve) && !clearedChart
      ensures selected.Some? && confirmed ==>
        var name := old(listNames)[selected.value];
        && curves == old(curves) - {name}
        && listNames == RemoveAt(old(listNames), selected.value)
        && clearedChart == (old(currentCurve) == name)
        && currentCurve == (if clearedChart then "" else old(currentCurve))
    {
      clearedChart := false;
      if selected.None? {
        return;
      }
      var name := listNames[selected.value];
      if confirmed {
        curves := curves - {name};
        listNames := listNames[..selected.value] + listNames[selected.value + 1..];
        if currentCurve == name {
          clearedChart := true;
          currentCurve := "";
        }
      }
    }

    /**
     * Data of the shown pressure/rate curve was moved on the chart: the
     * moved graph's points, as absolute keys, replace the pressure or the
     * production vectors. Nothing else is saved back.
     */
    method OnGraphDataModified(graph: Option<MovedGraph>, data: seq<Point>)
      requires Valid()
      modifies this
      ensures Valid()
      ensures listNames == old(listNames) && currentCurve == old(currentCurve)
      ensures selectingForExport == old(selectingForExport) && selectionStep == old(selectionStep)
      ensures exportStart == old(exportStart) && exportEnd == old(exportEnd)
      ensures var cur := old(currentCurve);
        if graph.None? || cur == "" || cur !in old(curves) || old(curves)[cur].curveType != 1 || graph.value.OtherGraph?
        then curves == old(curves)
        else if graph.value.PressureGraph?
        then curves == old(curves)[cur := old(curves)[cur].(xData := Xs(data), yData := Ys(data))]
        else curves == old(curves)[cur := old(curves)[cur].(x2Data := Xs(data), y2Data := Ys(data))]
      ensures var cur := old(currentCurve);
        graph.Some? && !graph.value.OtherGraph? && cur != "" && cur in old(curves) && old(curves)[cur].curveType == 1 ==>
        data == if graph.value.PressureGraph? then Zip(curves[cur].xData, curves[cur].yData)
                else Zip(curves[cur].x2Data, curves[cur].y2Data)
    {
      ZipOfProjections(data);
      if graph.None? || currentCurve == "" {
        return;
      }
      if currentCurve !in curves {
        return;
      }
      var info := curves[currentCurve];
      if info.curveType == 1 {
        var newX, newY := SplitPoints(data);
        if graph.value.PressureGraph? {
          info := info.(xData := newX, yData := newY);
          curves := curves[currentCurve := info];
        } else if graph.value.ProductionGraph? {
          info := info.(x2Data := newX, y2Data := newY);
          curves := curves[currentCurve := info];
        }
      }
    }

    /**
     * The export action: with a curve shown, "all data" asks for a full
     * export (`fullExport`), "partial data" starts the two-click selection.
     */
    method OnExportDataTriggered(choice: ExportChoice) returns (fullExport: bool)
      requires Valid()
      modifies this
      ensures Valid()
      ensures curves == old(curves) && listNames == old(listNames) && currentCurve == old(currentCurve)
      ensures exportStart == old(exportStart) && exportEnd == old(exportEnd)
      ensures fullExport <==> currentCurve != "" && choice == AllData
      ensures currentCurve != "" && choice == PartialData ==> selectingForExport && selectionStep == 1
      ensures !(currentCurve != "" && choice == PartialData) ==>
        selectingForExport == old(selectingForExport) && selectionStep == old(selectionStep)
    {
      fullExport := false;
      if currentCurve == "" {
        return;
      }
      if choice == AllData {
        fullExport := true;
      } else if choice == PartialData {
        selectingForExport := true;
        selectionStep := 1;
      }
    }

    /**
     * A click on a graph point (key `key`; None when the clicked plottable is
     * not a graph). While selecting, the first click sets the start, the
     * second the end; the ends are put in order, selection stops and the
     * partial export of `range` is started.
     */
    method OnGraphClicked(key: Option<real>) returns (range: Option<(real, real)>)
      requires Valid()
      modifies this
      ensures Valid()
      ensures curves == old(curves) && listNames == old(listNames) && currentCurve == old(currentCurve)
      ensures !old(selectingForExport) || key.None? ==>
        selectingForExport == old(selectingForExport) && selectionStep == old(selectionStep)
        && exportStart == old(exportStart) && exportEnd == old(exportEnd) && range == None
      ensures old(selectingForExport) && key.Some? && old(selectionStep) == 1 ==>
        selectingForExport && selectionStep == 2 && exportStart == key.value && exportEnd == old(exportEnd)
        && range == None
      ensures old(selectingForExport) && key.Some? && old(selectionStep) != 1 ==>
        !selectingForExport && selectionStep == old(selectionStep)
        && (exportStart, exportEnd) == Export.OrderEndpoints(old(exportStart), key.value)
        && range == Some((exportStart, exportEnd))
    {
      range := None;
      if !selectingForExport {
        return;
      }
      if key.None? {
        return;
      }
      if selectionStep == 1 {
        exportStart := key.value;
        selectionStep := 2;
      } else {
        exportEnd := key.value;
        if exportStart > exportEnd {
          exportStart, exportEnd := exportEnd, exportStart;
        }
        selectingForExport := false;
        range := Some((exportStart, exportEnd));
      }
    }
  }

  /**
   * Loading two saved curves with the same name and deleting one of the two
   * items leaves the other item showing a name no curve is filed under.
   */
  method RepeatedNameScenario() returns (w: PlottingWidget)
    ensures w.Valid() && w.listNames == ["a"] && "a" !in w.curves
  {
    w := new PlottingWidget();
    var c := DefaultCurve().(name := "a");
    w.LoadProjectData([c, c.(curveType := 2)]);
    assert NamesOf([c, c.(curveType := 2)]) == ["a", "a"];
    var cleared := w.OnDeleteClicked(Some(0), true);
    assert w.listNames == RemoveAt(["a", "a"], 0);
  }
}
