# Well-test plotting widget — a Dafny model

This project models the core of the well-test plotting page of a Qt desktop
application. The page has two parts:

- `WT_PlottingWidget` keeps a named list of curves and builds what each curve
  plots from data tables. There are three kinds of curve: single curves,
  pressure/rate charts and pressure-derivative curves.
- `ChartWidget` is the chart it draws on. The chart has a single or stacked
  layout, a mouse-driven interaction mode, a "move data" drag that shifts a
  graph in place, and annotations attached to characteristic lines.

The model is split into one module per concern:

| file | module | what it models |
|---|---|---|
| `common.dfy` | `Common` | shared values (`Point`, `Option`, the 1e-9 threshold), sums, and an order-preserving filter-map with a witness of the kept indices |
| `production.dfy` | `Production` | the rate series of a stacked chart: the absolute-time test, the accumulation of step intervals, the shut-in / open events |
| `curvedata.dfy` | `CurveData` | the row filters of table reads, the pressure-drop (delta p) series of derivative curves, and the editor's recomputation of them |
| `export.dfy` | `Export` | which samples an export writes, with which columns, for a full or a partial export |
| `jsonvector.dfy` | `JsonVector` | saving a vector of doubles as a JSON array and loading it back |
| `plotting.dfy` | `Plotting` | the `PlottingWidget` class: curve map, curve list, displayed curve, loading, adding and renaming curves, the two-click export selection, and what repeated curve names lead to |
| `chart.dfy` | `Chart` | the `ChartWidget` class: chart mode and axis rects, interaction modes, in-place data shift, annotation table |

Doubles are modelled as `real`, and the source's `1e-9` threshold is `Common.Epsilon`.
The source's loops are modelled as Dafny methods with loops. Each loop method is
proved equal to a specification function. The lemmas then state what those
functions promise.

The production-series test of whether the data are absolute times is a
heuristic. Two lemmas show its limits:

- `Production.IncreasingIntervalsReadAsAbsolute`: step intervals that happen to
  increase strictly are drawn as if they were absolute times.
- `Production.ZeroIntervalReaccumulatedAfterMove`: a zero-length step makes the
  saved absolute times repeat a value, so after a move they are accumulated a
  second time.

## Model

| member | source | states |
|---|---|---|
| Production.DetectAbsoluteTime | wt_plottingwidget.cpp:433-443 | the flag is set exactly when there are at least two production times and each is strictly larger than the one before |
| Production.AccumulateIntervals | wt_plottingwidget.cpp:449-466 | the loop produces the step series: times 0 then the running sums of the intervals, rates the next rate after each interval (the last rate held) |
| Production.StepSeriesLength | wt_plottingwidget.cpp:451-466 | both step vectors have one point per interval with a rate plus the leading point, and are empty exactly when either input is empty |
| Production.StepSeriesPoints | wt_plottingwidget.cpp:453-464 | the first point is (0, first rate) and each next time is the previous one plus the interval |
| Production.StepRatesHoldLast | wt_plottingwidget.cpp:458-465 | with at least as many intervals as rates the last rate is repeated once; with more rates the extra ones are dropped |
| Production.StepTimesNonDecreasing | wt_plottingwidget.cpp:456-461 | non-negative intervals give non-decreasing step times |
| Production.StepTimesAreAbsolute | wt_plottingwidget.cpp:433-448 | positive intervals give step times that the absolute-time test accepts, and every pair of them is in order |
| Production.PrepareProductionSeries | wt_plottingwidget.cpp:428-495 | a step chart draws absolute times as they are and accumulates intervals otherwise; a line chart draws the data as they are; only a step chart gets event lines |
| Production.MovedStepSeriesNotReaccumulated | wt_plottingwidget.cpp:433-448 | a step series moved along the time axis and saved back as absolute times is drawn as it is, not accumulated again |
| Production.IncreasingIntervalsReadAsAbsolute | wt_plottingwidget.cpp:433-448 | intervals 1, 2 are drawn as times 1, 2 although accumulation would give 0, 1, 3 |
| Production.ZeroIntervalReaccumulatedAfterMove | wt_plottingwidget.cpp:433-466 | intervals 1, 0 accumulate to times 0, 1, 1, which fail the strict test and are accumulated again to 0, 0, 1, 2 |
| Production.EventsUpTo | wt_plottingwidget.cpp:472-485 | the first n adjacent pairs give at most n events |
| Production.DetectWellEvents | wt_plottingwidget.cpp:471-486 | the event loop emits exactly the events of the specification, none unless both vectors have the same length above one |
| Production.WellEventsBound | wt_plottingwidget.cpp:471-486 | a series of n points has at most n - 1 events |
| Production.WellEventSound | wt_plottingwidget.cpp:472-485 | every event comes from an adjacent pair that crosses the 1e-9 threshold, and is placed at the later time |
| Production.WellEventComplete | wt_plottingwidget.cpp:472-485 | every adjacent pair that crosses the threshold produces its event |
| Production.PairEventKind | wt_plottingwidget.cpp:477-484 | an adjacent pair gives at most one event, none iff both samples flow or neither does; a shut-in leaves a flowing sample for a non-flowing one, an opening the reverse |
| Production.FlowParity | wt_plottingwidget.cpp:471-486 | the well flows at sample n iff the parity of the number of events so far agrees with whether it flowed at the first sample |
| Production.EventKindParity | wt_plottingwidget.cpp:471-486 | event k is a shut-in iff the well flowed at the first sample and k is even, or it did not and k is odd |
| Production.NoEventKeepsFlow | wt_plottingwidget.cpp:471-486 | with no events so far, the well flows at sample n iff it flows at the first sample |
| Production.FirstEventKind | wt_plottingwidget.cpp:471-486 | the first event is a shut-in iff the well flows at the first sample |
| Production.LastEventKind | wt_plottingwidget.cpp:471-486 | the last event is a shut-in iff the well does not flow at the last sample considered |
| Production.WellEventsAlternate | wt_plottingwidget.cpp:471-486 | every two consecutive events differ in kind: shut-ins and openings alternate |
| CurveData.FilterRows | wt_plottingwidget.cpp:655-673 | the table-reading loop keeps, in order, exactly the rows with both cells present that pass the curve type's filter |
| CurveData.FilteredRowsExact | wt_plottingwidget.cpp:663-673 | a row is kept iff both cells exist and both values exceed 1e-9 (derivative curves: the time is positive); kept points are the row values, in table order |
| CurveData.DeltaP | wt_plottingwidget.cpp:739 | delta p is never negative: the distance to the initial pressure for a drawdown, to the shut-in pressure otherwise |
| CurveData.PressureDropFromVectors | wt_plottingwidget.cpp:733-744 | the editor's delta-p loop, which stops at the shorter vector, yields the delta-p series of the vectors |
| CurveData.PressureDropFromTable | wt_plottingwidget.cpp:920-941 | the creation loop, with the shut-in pressure from row 0's cell (0 when there is none), yields the delta-p series of the table |
| CurveData.VectorDropSeriesExact | wt_plottingwidget.cpp:735-744 | sample i is kept iff its time and its delta p are positive; kept points are (time, delta p), in order |
| CurveData.VectorDropSeriesKeepsTimeOrder | wt_plottingwidget.cpp:735-744 | sorted times give a sorted delta-p curve |
| CurveData.BuildupDropsReferenceSample | wt_plottingwidget.cpp:733-744 | for a buildup, the first sample (the shut-in reference, delta p 0) is never kept |
| CurveData.TableDropSeriesExact | wt_plottingwidget.cpp:928-941 | a table row is kept iff both cells exist and its time and delta p are positive; kept points are (time, delta p), in order |
| CurveData.DerivativeCurveData | wt_plottingwidget.cpp:916-945 | a new derivative curve holds the table's delta-p series and the derivative computed from it, smoothed when smoothing is on |
| CurveData.ManageDerivativeSeries | wt_plottingwidget.cpp:646-675 | the editor's derivative branch as written, reading from the reloaded table or the stored vectors (lines 727-749 continue it) |
| CurveData.ManageMovesBuildupReference | wt_plottingwidget.cpp:733 | editing a buildup curve whose table starts at time 0 measures from the first positive-time row, not row 0 (see Findings) |
| CurveData.ManageReappliesDrop | wt_plottingwidget.cpp:729-739 | editing a drawdown curve without its table turns a stored drop of 5 (initial pressure 105) into 100 (see Findings) |
| CurveData.ManagedDerivativeSeries | wt_plottingwidget.cpp:727-749 | the corrected editor: a reloaded table goes through the creation loop, stored delta p is kept, then the derivative is recomputed |
| CurveData.ManagedKeepsCreatedCurve | wt_plottingwidget.cpp:928-941 | the corrected editor leaves a freshly created curve unchanged, with or without its table |
| Export.OrderEndpoints | wt_plottingwidget.cpp:1027 | the two clicked keys come out ordered, as the same pair or its swap, and unchanged when already in order |
| Export.ExecuteExport | wt_plottingwidget.cpp:1034-1089 | the export writes the header of its mode and one line per sample in range, from the stacked graphs, the first graph or the stored vectors, and nothing when a stacked graph is missing |
| Export.WriteLines | wt_plottingwidget.cpp:1053-1084 | the writing loop emits, in sample order, one line per sample in range and skips the others |
| Export.PartialExportSelectsRange | wt_plottingwidget.cpp:1053-1084 | a partial export writes, in order, exactly the samples with start <= t <= end, as (t - start, values, t), with t - start between 0 and end - start |
| Export.FullExportWritesAll | wt_plottingwidget.cpp:1053-1084 | a full export writes every sample, in order, with its own time and no original-time column |
| Export.ExportIgnoresClickOrder | wt_plottingwidget.cpp:1015-1031 | the table written is the same whichever end of the range is clicked first |
| JsonVector.ArrayOf | wt_plottingwidget.cpp:39-43 | a saved vector is an array of the same length whose element i is the number vec[i] |
| JsonVector.VectorOf | wt_plottingwidget.cpp:45-49 | a loaded vector has the array's length and element i is element i read as a double |
| JsonVector.VectorToJson | wt_plottingwidget.cpp:39-43 | the saving loop builds the array of the vector's values |
| JsonVector.JsonToVector | wt_plottingwidget.cpp:45-49 | the loading loop builds the vector of the array's values |
| JsonVector.VectorRoundTrip | wt_plottingwidget.cpp:39-49 | saving and loading gives back the same vector |
| JsonVector.ArrayRoundTrip | wt_plottingwidget.cpp:39-49 | loading and saving gives back the same array exactly when every element is a number |
| Plotting.FirstIndexOf | wt_plottingwidget.cpp:216-218 | the first position holding the name, or none exactly when the list does not hold it |
| Plotting.RenameMovesEntry | wt_plottingwidget.cpp:206-209 | after a rename the curve sits under the new key with its name updated, the old key is gone, and every other curve is kept |
| Plotting.RenameKeepsNamesMatchingKeys | wt_plottingwidget.cpp:206-209 | a rename keeps each curve's name equal to its key |
| Plotting.RenameBackRestores | wt_plottingwidget.cpp:206-209 | renaming to a free name and back gives the original curve map |
| Plotting.RenamedListRelabelsOneItem | wt_plottingwidget.cpp:211-219 | when the list matches the map, the displayed curve's name is in the list, so the list update finds an item |
| Plotting.RenameKeepsListMatchingKeys | wt_plottingwidget.cpp:206-219 | after a rename the list still holds each curve name exactly once |
| Plotting.RemoveAt | wt_plottingwidget.cpp:980 | deleting a list item keeps the items before it and shifts the ones after it by one |
| Plotting.DeleteKeepsListMatchingKeys | wt_plottingwidget.cpp:977-984 | deleting the selected curve from map and list keeps them matching |
| Plotting.LoadedCurvesFileByName | wt_plottingwidget.cpp:294-297 | loading files each curve under its name, keeps a key exactly for each name that occurs, and leaves under a repeated name the last curve that has it |
| Plotting.LoadDistinctNamesMatchList | wt_plottingwidget.cpp:294-297 | saved curves with distinct names load into a list that shows each map key exactly once |
| Plotting.AddFreshNameKeepsListMatchingKeys | wt_plottingwidget.cpp:798-799 | adding a curve under a free name keeps the list showing each key once |
| Plotting.AddTakenNameRepeatsItem | wt_plottingwidget.cpp:798-799 | adding a curve under a taken name replaces the old curve, the map does not grow, and the list shows the name twice |
| Plotting.DeleteTwinLeavesOrphan | wt_plottingwidget.cpp:977-984 | deleting one of two items with the same text leaves the other showing a name no curve is filed under |
| Plotting.RenamedListShape | wt_plottingwidget.cpp:211-219 | a rename relabels at most one list item, and only one that showed the old name |
| Plotting.RenameTwinLeavesOldItem | wt_plottingwidget.cpp:206-219 | with two items showing the displayed name, a rename leaves one of them showing a name no curve has |
| Plotting.EditorRenameOverwritesTakenName | wt_plottingwidget.cpp:631-639 | the editor's rename to a name another curve has overwrites that curve, and the map loses one entry |
| Plotting.TitleUpdateUnfilesCurve | wt_plottingwidget.cpp:258-264 | setting the chart title renames the displayed curve but keeps its key, so names no longer match keys |
| Plotting.SplitPoints | wt_plottingwidget.cpp:555-561 | the copy loop gives the keys and values of the graph's data, in order |
| Plotting.PlottingWidget.constructor | wt_plottingwidget.cpp:154-163 | an empty curve map and list, no curve displayed, not selecting for export, step 0, both ends 0 |
| Plotting.PlottingWidget.OnChartTitleChanged | wt_plottingwidget.cpp:193-222 | no change without a displayed curve or for the same title; a taken name restores the title; otherwise the entry moves to the new title and the selected item, if it shows the old name, or else the first item that does, is relabelled; repeated list names are allowed |
| Plotting.PlottingWidget.OnCurveDoubleClicked | wt_plottingwidget.cpp:327-339 | a known curve becomes the displayed one and is shown; an unknown name changes nothing |
| Plotting.PlottingWidget.LoadProjectData | wt_plottingwidget.cpp:285-302 | the map and list are replaced by the saved curves, inserted and listed in order, and the first one is displayed |
| Plotting.PlottingWidget.AddCurve | wt_plottingwidget.cpp:798-810 | a new curve is inserted under its name without a check and listed last; it is displayed unless it opens in a new window |
| Plotting.PlottingWidget.UpdateChartTitle | wt_plottingwidget.cpp:258-264 | a displayed curve in the map takes the title as its name under its old key, and the selected item shows the title; nothing else changes |
| Plotting.PlottingWidget.EditorRename | wt_plottingwidget.cpp:631-639 | when the selected item's curve gets another name from the editor, it moves under that name whether or not it is free, the item shows it and the curve becomes the displayed one |
| Plotting.PlottingWidget.OnDeleteClicked | wt_plottingwidget.cpp:977-984 | with a selected item and confirmation the curve under its text leaves the map and that one item leaves the list, and the chart is cleared when it was the displayed curve; otherwise nothing changes; repeated list names are allowed |
| Plotting.PlottingWidget.OnGraphDataModified | wt_plottingwidget.cpp:547-576 | for a pressure/rate curve, the moved graph's data replace the pressure or the rate vectors, which pair up again into exactly the moved points; anything else changes nothing |
| Plotting.PlottingWidget.OnExportDataTriggered | wt_plottingwidget.cpp:989-1013 | with a displayed curve, "all data" exports everything and "partial" starts the two-click selection; otherwise nothing changes |
| Plotting.PlottingWidget.OnGraphClicked | wt_plottingwidget.cpp:1015-1031 | the first click records the start; the second records the end, ends the selection and exports the ordered range; clicks outside a selection are ignored |
| Plotting.RepeatedNameScenario | wt_plottingwidget.cpp:293-297 | loading two saved curves with the same name and deleting one of the two items leaves the other item showing a name no curve is filed under |
| Chart.DragModeOf | chartwidget.cpp:370-403 | each hit starts its drag mode, never a move-data mode, and a miss starts none |
| Chart.ShiftKeysMovesOnlyKeys | chartwidget.cpp:428-432 | a horizontal move keeps the point count and the values and moves every key by dx |
| Chart.ShiftValuesMovesOnlyValues | chartwidget.cpp:428-432 | a vertical move keeps the point count and the keys and moves every value by dy |
| Chart.ShiftKeysKeepsKeyOrder | chartwidget.cpp:428-432 | a horizontal move keeps the data container's keys sorted |
| Chart.ShiftsCompose | chartwidget.cpp:414-437 | successive moves add up, and moving back undoes a move |
| Chart.DeleteLeavesDanglingAnnotation | chartwidget.cpp:640-646 | deleting an annotation's text leaves the table entry pointing at an item no longer on the plot (see Findings) |
| Chart.PruneKeepsAnnotationsLive | chartwidget.cpp:640-646 | pruning entries that refer to deleted items keeps every annotation live and keeps the other entries unchanged |
| Chart.ChartWidget.constructor | chartwidget.cpp:30-42 | single mode, no interaction, no moving graph, no graphs, items or annotations |
| Chart.ChartWidget.ExitMoveDataMode | chartwidget.cpp:553-560 | a move-data mode ends in no interaction with no moving graph; any other mode is left as it is |
| Chart.ChartWidget.ClearGraphs | chartwidget.cpp:167-172 | all graphs are removed and a move-data mode is left; the layout, items, annotations and active items are unchanged |
| Chart.ChartWidget.SetChartMode | chartwidget.cpp:175-232 | the same mode changes nothing; a new mode leaves move-data mode and creates fresh axis rects for the layout; graphs, items, annotations and active items are unchanged |
| Chart.ChartWidget.OnMoveDataXTriggered | chartwidget.cpp:501-508 | the chart enters horizontal move-data mode, and every other field is unchanged |
| Chart.ChartWidget.OnMoveDataYTriggered | chartwidget.cpp:510-517 | the chart enters vertical move-data mode, and every other field is unchanged |
| Chart.ChartWidget.KeyPressEvent | chartwidget.cpp:546-551 | Escape leaves a move-data mode; any other key changes nothing; every other field is unchanged |
| Chart.ChartWidget.OnPlotMousePress | chartwidget.cpp:341-407 | a right press opens the menu only in stacked mode; a left press picks the graph to move in move-data mode, otherwise starts the drag of what was hit; the active items change only when a drag starts, and the layout, graphs, items and annotations never |
| Chart.ChartWidget.StartDrag | chartwidget.cpp:370-403 | a left press outside the move-data modes starts the drag the hit selects and makes only the hit text, arrow or line active; the picked graph and the item tables are kept |
| Chart.ChartWidget.OnPlotMouseMove | chartwidget.cpp:409-437 | while the left button is held, the moving graph's keys (X mode) or values (Y mode) shift by the drag in place, and nothing else changes |
| Chart.ChartWidget.OnPlotMouseRelease | chartwidget.cpp:477-490 | releasing after a move-data drag reports the moved graph and keeps the mode; any other drag returns to no interaction; every other field is unchanged |
| Chart.ChartWidget.AddAnnotationToLine | chartwidget.cpp:611-638 | any old annotation of the line is removed; a non-empty text adds a fresh text and arrow; live and disjoint annotations stay so; modes, layout, graphs and active items are unchanged |
| Chart.TakeNoteKeepsLive | chartwidget.cpp:613-617 | removing a line's annotation with its text and arrow leaves the other annotations live and pairwise disjoint |
| Chart.AddNoteKeepsLive | chartwidget.cpp:623-636 | filing an annotation made of two new items for a line without one keeps the table live and disjoint |
| Chart.ChartWidget.DeleteSelectedItems | chartwidget.cpp:640-646 | as written: the selected items are removed and the annotation table, like every other field, is left as it was |
| Chart.ChartWidget.DeleteSelectedItemsKeepingAnnotations | chartwidget.cpp:640-646 | corrected: the selected items are removed together with the annotation entries that refer to them, live annotations stay live, and every other field is unchanged |
| Chart.RectsFollowMode | chartwidget.cpp:235-242 | the top rect always exists; the bottom rect exists exactly in stacked mode and differs from the top one; single mode uses the plot rect |
| Chart.DanglingAnnotationScenario | chartwidget.cpp:611-646 | annotating a line and then deleting its text leaves a valid widget whose annotation table is no longer live |

## Left out

- Pixel geometry and hit-testing are not modelled: distance to a segment, text and arrow hit-tests, dragging text, arrows and line ends, constrainLinePoint, updateAnnotationArrow, addCharacteristicLine, calculateLinePoints. A press is given as the already-computed `Hit`, and a move as the already-converted `dx`/`dy`.
- getProductionValueFromGraph is a lookup in the rate graph. It is the `production` function parameter of `Export.StackedGraphs`.
- The Bourdet derivative and its smoothing live in another component, which is not part of this model. They are function parameters, and nothing is assumed about them.
- Dialogs, message boxes, cursors and replots are not modelled, because they are user interface only. A dialog's answer is a parameter (`selected`, `confirmed`, `entered`, `choice`).
- File I/O is not modelled: choosing and opening the export file, the tab or comma separator, and the text formatting of numbers. An export is modelled as its header columns and rows.
- Export.ExecuteExport: requires the stored y vector to be at least as long as the x vector. The source indexes it unchecked, which is undefined behaviour when it is shorter.
- Conversion of cell text to double is not modelled. Cells are taken as already-converted numbers, or missing.
- CurveInfo toJson/fromJson are not modelled beyond the vector helpers. Nor are the styles, colours and legends. `CurveInfo` keeps only the fields the core reads.
- onChartGraphsChanged, setDataModels, saveProjectData and clearAllPlots are not modelled. They copy settings, clear the widget or write the map to project storage. Reading the saved curves from storage is not modelled: `LoadProjectData` takes them as a parameter.
- Plotting.PlottingWidget.UpdateChartTitle: does not model the chart title itself, only the curve name and the list item it changes.
- Curve creation is modelled through its data loops and its filing step. The row filter is `CurveData.FilterRows`, the delta-p loop is `CurveData.DerivativeCurveData`, and the insertion is `Plotting.PlottingWidget.AddCurve`. The pressure/rate creation reads its tables unfiltered, and that read is not modelled.
- Plotting.PlottingWidget.EditorRename: the source renames through a reference into the map entry it has just removed (lines 586 and 632-637). The model reads the curve before the removal, which is what the code evidently means; the dangling reference itself is not modelled.
- The curve editor's other settings (source file, columns, styles) are dialog results copied into the curve. They are not modelled.
- The curve editor's single-curve and pressure/rate branches are left out. Only its derivative branch, where the findings are, is modelled.
- Plotting.PlottingWidget.OnDeleteClicked: does not model which list item becomes selected after the delete. That choice belongs to the list widget.
- Chart.ChartWidget.SetChartMode: does not model the layout, legend and title placement. It states only the mode, the axis rects and the interaction mode.
- Chart.ChartWidget.GetTopRect: has no contract of its own. What it returns is stated by `Chart.RectsFollowMode`.
- Plotting.DefaultCurve: the default values of the remaining CurveInfo members are not modelled. Only the name and the type matter here.
- Doubles are exact reals, so rounding in the interval sums and in delta p is not modelled.

## Findings

| source | as written | input that shows it | evidently intended | confidence | as-written member | corrected member |
|---|---|---|---|---|---|---|
| wt_plottingwidget.cpp:733 | the curve editor takes the buildup shut-in pressure from the first sample left after the positive-time filter | table (0, 100), (1, 110), (2, 115), buildup: creation gives (1, 10), (2, 15); the editor gives (2, 5) | the shut-in pressure of row 0, as creation uses at line 922-926 | not executed | CurveData.ManageMovesBuildupReference | CurveData.ManagedDerivativeSeries |
| wt_plottingwidget.cpp:729-739 | when the table is not reloaded, the editor applies the delta-p transform to the stored vectors, which already hold delta p | stored (1, 5), drawdown, initial pressure 105: the editor stores (1, 100) | keep the stored delta-p curve | not executed | CurveData.ManageReappliesDrop | CurveData.ManagedKeepsCreatedCurve |
| chartwidget.cpp:640-646 | deleting selected items never removes annotation entries, so an entry can point at a deleted text or arrow, which is then used when its line is dragged (line 461-464); that use reads freed memory unless the annotation record holds guarded handles that clear on deletion, which its header (not part of this model) decides | annotate a line, select its text, delete | remove the annotation entries that refer to a deleted item | not executed | Chart.DanglingAnnotationScenario | Chart.ChartWidget.DeleteSelectedItemsKeepingAnnotations |
