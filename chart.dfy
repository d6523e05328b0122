// The chart widget's state machine (ChartWidget, chartwidget.cpp): single or
// stacked layout and the axis rects it owns, the interaction mode driven by
// the mouse, the keyboard and the move-data actions, the in-place shift of the
// moved graph's data, and the table of annotations attached to
// characteristic lines.

module Chart {
  import opened Common

  /** An axis rect of the plot layout; only its identity matters here. */
  class AxisRect {
  }

  /** A plotted graph and its data container, updated in place when moved. */
  class Graph {
    const data: array<Point>

    constructor (pts: seq<Point>)
      ensures data[..] == pts && fresh(data)
    {
      data := new Point[|pts|](i requires 0 <= i < |pts| => pts[i]);
    }
  }

  /** A text item of the plot. */
  class TextItem {
    var text: string

    constructor (t: string)
      ensures text == t
    {
      text := t;
    }
  }

  /** A line item of the plot: a characteristic line or an annotation arrow. */
  class ItemLine {
    const characteristic: bool

    constructor (c: bool)
      ensures characteristic == c
    {
      characteristic := c;
    }
  }

  /** The text and the arrow attached to one characteristic line. */
  datatype Annotation = Annotation(textItem: TextItem, arrowItem: ItemLine)

  datatype ChartMode = Single | Stacked

  datatype InterMode =
    | NoInteraction
    | DraggingLine
    | DraggingStart
    | DraggingEnd
    | DraggingText
    | DraggingArrowStart
    | DraggingArrowEnd
    | MovingDataX
    | MovingDataY

  predicate IsMoving(m: InterMode)
  {
    m == MovingDataX || m == MovingDataY
  }

  datatype MouseButton = LeftButton | RightButton | OtherButton

  /**
   * What a left press hits once the pixel hit-tests (not part of this model)
   * have run, in the order they run: a text item, the start or end of an
   * arrow, or the start, end or body of a characteristic line.
   */
  datatype Hit =
    | Nothing
    | OnText(text: TextItem)
    | OnArrowStart(arrow: ItemLine)
    | OnArrowEnd(arrow: ItemLine)
    | OnLineStart(line: ItemLine)
    | OnLineEnd(line: ItemLine)
    | OnLineBody(line: ItemLine)

  /** The drag mode a hit starts. */
  function DragModeOf(hit: Hit): (m: InterMode)
    ensures !IsMoving(m)
    ensures m == NoInteraction <==> hit.Nothing?
  {
    match hit
    case Nothing => NoInteraction
    case OnText(_) => DraggingText
    case OnArrowStart(_) => DraggingArrowStart
    case OnArrowEnd(_) => DraggingArrowEnd
    case OnLineStart(_) => DraggingStart
    case OnLineEnd(_) => DraggingEnd
    case OnLineBody(_) => DraggingLine
  }

  // ---------------------------------------------------------------------------
  // Data shift
  // ---------------------------------------------------------------------------

  /** Every key moved by `dx`, values kept. */
  function ShiftKeys(pts: seq<Point>, dx: real): seq<Point>
  {
    seq(|pts|, i requires 0 <= i < |pts| => Point(pts[i].x + dx, pts[i].y))
  }

  /** Every value moved by `dy`, keys kept. */
  function ShiftValues(pts: seq<Point>, dy: real): seq<Point>
  {
    seq(|pts|, i requires 0 <= i < |pts| => Point(pts[i].x, pts[i].y + dy))
  }

  /** A horizontal move keeps the point count and the values, and moves every key by the same amount. */
  lemma ShiftKeysMovesOnlyKeys(pts: seq<Point>, dx: real)
    ensures |ShiftKeys(pts, dx)| == |pts|
    ensures Ys(ShiftKeys(pts, dx)) == Ys(pts)
    ensures forall i :: 0 <= i < |pts| ==> ShiftKeys(pts, dx)[i].x - pts[i].x == dx
  {
  }

  /** A vertical move keeps the point count and the keys, and moves every value by the same amount. */
  lemma ShiftValuesMovesOnlyValues(pts: seq<Point>, dy: real)
    ensures |ShiftValues(pts, dy)| == |pts|
    ensures Xs(ShiftValues(pts, dy)) == Xs(pts)
    ensures forall i :: 0 <= i < |pts| ==> ShiftValues(pts, dy)[i].y - pts[i].y == dy
  {
  }

  /** The key order of the data container survives a horizontal move. */
  lemma ShiftKeysKeepsKeyOrder(pts: seq<Point>, dx: real)
    requires Sorted(Xs(pts))
    ensures Sorted(Xs(ShiftKeys(pts, dx)))
  {
    var xs, ys := Xs(pts), Xs(ShiftKeys(pts, dx));
    forall i, j | 0 <= i < j < |ys| ensures ys[i] < ys[j] {
      assert ys[i] == xs[i] + dx && ys[j] == xs[j] + dx;
    }
  }

  /** Successive mouse moves add up, and moving back undoes a move. */
  lemma ShiftsCompose(pts: seq<Point>, a: real, b: real)
    ensures ShiftKeys(ShiftKeys(pts, a), b) == ShiftKeys(pts, a + b)
    ensures ShiftValues(ShiftValues(pts, a), b) == ShiftValues(pts, a + b)
    ensures ShiftKeys(ShiftKeys(pts, a), -a) == pts
    ensures ShiftValues(ShiftValues(pts, a), -a) == pts
  {
  }

  // ---------------------------------------------------------------------------
  // Annotation table
  // ---------------------------------------------------------------------------

  /** Every annotation's text and arrow are still items of the plot. */
  predicate AnnotationsLive(annotations: map<ItemLine, Annotation>, items: set<object>)
  {
    forall l :: l in annotations ==> annotations[l].textItem in items && annotations[l].arrowItem in items
  }

  /** Different lines have different annotation texts and arrows. */
  predicate NotesDisjoint(annotations: map<ItemLine, Annotation>)
  {
    forall l1, l2 :: l1 in annotations && l2 in annotations && l1 != l2 ==>
      annotations[l1].textItem != annotations[l2].textItem && annotations[l1].arrowItem != annotations[l2].arrowItem
  }

  /** The text and the arrow of a line's annotation, none when it has no annotation. */
  function NoteItems(annotations: map<ItemLine, Annotation>, line: ItemLine): set<object>
  {
    if line in annotations then {annotations[line].textItem, annotations[line].arrowItem} else {}
  }

  /** Taking a line's annotation out of the table, with its text and arrow, keeps the others live and disjoint. */
  lemma TakeNoteKeepsLive(annotations: map<ItemLine, Annotation>, items: set<object>, line: ItemLine)
    requires AnnotationsLive(annotations, items) && NotesDisjoint(annotations)
    ensures AnnotationsLive(annotations - {line}, items - NoteItems(annotations, line))
    ensures NotesDisjoint(annotations - {line})
  {
  }

  /** Filing a new annotation whose text and arrow are new items keeps the table live and disjoint. */
  lemma AddNoteKeepsLive(annotations: map<ItemLine, Annotation>, items: set<object>, line: ItemLine, note: Annotation)
    requires line !in annotations
    requires note.textItem !in items && note.arrowItem !in items
    requires AnnotationsLive(annotations, items) && NotesDisjoint(annotations)
    ensures AnnotationsLive(annotations[line := note], items + NoteItems(annotations[line := note], line))
    ensures NotesDisjoint(annotations[line := note])
  {
  }

  /**
   * Deleting the selected items as written keeps the annotation table as it
   * is: deleting an annotation's text leaves the table pointing at an item
   * that is no longer on the plot.
   */
  lemma DeleteLeavesDanglingAnnotation(annotations: map<ItemLine, Annotation>, items: set<object>, line: ItemLine)
    requires line in annotations
    ensures !AnnotationsLive(annotations, items - {annotations[line].textItem})
  {
  }

  /** An annotation none of whose items (line, text, arrow) is among `deleted`. */
  predicate Untouched(line: ItemLine, note: Annotation, deleted: set<object>)
  {
    line !in deleted && note.textItem !in deleted && note.arrowItem !in deleted
  }

  /** The annotation table without the entries that refer to a deleted item. */
  function PrunedAnnotations(annotations: map<ItemLine, Annotation>, deleted: set<object>): map<ItemLine, Annotation>
  {
    map l | l in annotations && Untouched(l, annotations[l], deleted) :: annotations[l]
  }

  /**
   * Pruning the table on deletion keeps every annotation live, drops exactly
   * the entries that refer to a deleted item, and keeps the others as they were.
   */
  lemma PruneKeepsAnnotationsLive(annotations: map<ItemLine, Annotation>, items: set<object>, deleted: set<object>)
    requires AnnotationsLive(annotations, items)
    ensures AnnotationsLive(PrunedAnnotations(annotations, deleted), items - deleted)
    ensures forall l :: l in PrunedAnnotations(annotations, deleted) <==> l in annotations && Untouched(l, annotations[l], deleted)
    ensures forall l :: l in PrunedAnnotations(annotations, deleted) ==> PrunedAnnotations(annotations, deleted)[l] == annotations[l]
  {
  }

  // ---------------------------------------------------------------------------
  // The widget
  // ---------------------------------------------------------------------------

  class ChartWidget {
    var chartMode: ChartMode
    var interMode: InterMode
    /** The graph a move-data drag acts on. */
    var movingGraph: Graph?
    var topRect: AxisRect?
    var bottomRect: AxisRect?
    /** The plot's first axis rect: the default rect in single mode, the top rect in stacked mode. */
    var plotRect: AxisRect
    var activeLine: ItemLine?
    var activeText: TextItem?
    var activeArrow: ItemLine?
    var graphs: seq<Graph>
    /** The items on the plot. */
    var items: set<object>
    var annotations: map<ItemLine, Annotation>

    ghost predicate Valid()
      reads this
    {
      && (chartMode == Single ==> topRect == null && bottomRect == null)
      && (chartMode == Stacked ==> topRect != null && bottomRect != null && topRect != bottomRect && plotRect == topRect)
      && (movingGraph != null ==> IsMoving(interMode))
    }

    constructor ()
      ensures Valid()
      ensures chartMode == Single && interMode == NoInteraction && movingGraph == null
      ensures topRect == null && bottomRect == null
      ensures activeLine == null && activeText == null && activeArrow == null
      ensures graphs == [] && items == {} && annotations == map[]
    {
      chartMode := Single;
      interMode := NoInteraction;
      movingGraph := null;
      topRect := null;
      bottomRect := null;
      plotRect := new AxisRect;
      activeLine := null;
      activeText := null;
      activeArrow := null;
      graphs := [];
      items := {};
      annotations := map[];
    }

    function GetTopRect(): (r: AxisRect?)
      reads this
    {
      if chartMode == Single then plotRect else topRect
    }

    function GetBottomRect(): (r: AxisRect?)
      reads this
    {
      if chartMode == Single then null else bottomRect
    }

    /** Leaves a move-data mode; in any other mode nothing changes. */
    method ExitMoveDataMode()
      requires Valid()
      modifies this
      ensures Valid()
      ensures IsMoving(old(interMode)) ==> interMode == NoInteraction && movingGraph == null
      ensures !IsMoving(old(interMode)) ==> interMode == old(interMode) && movingGraph == old(movingGraph)
      ensures chartMode == old(chartMode) && topRect == old(topRect) && bottomRect == old(bottomRect)
      ensures plotRect == old(plotRect) && graphs == old(graphs) && items == old(items) && annotations == old(annotations)
      ensures activeLine == old(activeLine) && activeText == old(activeText) && activeArrow == old(activeArrow)
    {
      if interMode == MovingDataX || interMode == MovingDataY {
        interMode := NoInteraction;
        movingGraph := null;
      }
    }

    /** Removes every graph, leaving a move-data mode. */
    method ClearGraphs()
      requires Valid()
      modifies this
      ensures Valid()
      ensures graphs == []
      ensures IsMoving(old(interMode)) ==> interMode == NoInteraction && movingGraph == null
      ensures !IsMoving(old(interMode)) ==> interMode == old(interMode) && movingGraph == old(movingGraph)
      ensures chartMode == old(chartMode) && topRect == old(topRect) && bottomRect == old(bottomRect)
      ensures plotRect == old(plotRect) && items == old(items) && annotations == old(annotations)
      ensures activeLine == old(activeLine) && activeText == old(activeText) && activeArrow == old(activeArrow)
    {
      graphs := [];
      ExitMoveDataMode();
    }

    /**
     * Switching the layout. The same mode again changes nothing. Otherwise a
     * move-data mode is left and the layout rebuilt: single mode gets a new
     * default rect and no top or bottom rect, stacked mode two new rects.
     */
    method SetChartMode(mode: ChartMode)
      requires Valid()
      modifies this
      ensures Valid()
      ensures chartMode == mode
      ensures old(chartMode) == mode ==>
        interMode == old(interMode) && movingGraph == old(movingGraph)
        && topRect == old(topRect) && bottomRect == old(bottomRect) && plotRect == old(plotRect)
      ensures old(chartMode) != mode ==>
        (IsMoving(old(interMode)) ==> interMode == NoInteraction && movingGraph == null)
        && (!IsMoving(old(interMode)) ==> interMode == old(interMode) && movingGraph == old(movingGraph))
      ensures old(chartMode) != mode && mode == Single ==> fresh(plotRect)
      ensures old(chartMode) != mode && mode == Stacked ==> fresh(topRect) && fresh(bottomRect)
      ensures graphs == old(graphs) && items == old(items) && annotations == old(annotations)
      ensures activeLine == old(activeLine) && activeText == old(activeText) && activeArrow == old(activeArrow)
    {
      if chartMode == mode {
        return;
      }
      ExitMoveDataMode();
      chartMode := mode;
      if mode == Single {
        var defaultRect := new AxisRect;
        plotRect := defaultRect;
        topRect := null;
        bottomRect := null;
      } else {
        var top := new AxisRect;
        var bottom := new AxisRect;
        topRect := top;
        bottomRect := bottom;
        plotRect := top;
      }
    }

    /** The X move-data action. */
    method OnMoveDataXTriggered()
      requires Valid()
      modifies this
      ensures Valid()
      ensures interMode == MovingDataX && movingGraph == old(movingGraph)
      ensures chartMode == old(chartMode) && topRect == old(topRect) && bottomRect == old(bottomRect)
      ensures plotRect == old(plotRect) && graphs == old(graphs) && items == old(items) && annotations == old(annotations)
      ensures activeLine == old(activeLine) && activeText == old(activeText) && activeArrow == old(activeArrow)
    {
      interMode := MovingDataX;
    }

    /** The Y move-data action. */
    method OnMoveDataYTriggered()
      requires Valid()
      modifies this
      ensures Valid()
      ensures interMode == MovingDataY && movingGraph == old(movingGraph)
      ensures chartMode == old(chartMode) && topRect == old(topRect) && bottomRect == old(bottomRect)
      ensures plotRect == old(plotRect) && graphs == old(graphs) && items == old(items) && annotations == old(annotations)
      ensures activeLine == old(activeLine) && activeText == old(activeText) && activeArrow == old(activeArrow)
    {
      interMode := MovingDataY;
    }

    /** Escape leaves a move-data mode; other keys change nothing here. */
    method KeyPressEvent(isEscape: bool)
      requires Valid()
      modifies this
      ensures Valid()
      ensures isEscape && IsMoving(old(interMode)) ==> interMode == NoInteraction && movingGraph == null
      ensures !(isEscape && IsMoving(old(interMode))) ==> interMode == old(interMode) && movingGraph == old(movingGraph)
      ensures chartMode == old(chartMode) && topRect == old(topRect) && bottomRect == old(bottomRect)
      ensures plotRect == old(plotRect) && graphs == old(graphs) && items == old(items) && annotations == old(annotations)
      ensures activeLine == old(activeLine) && activeText == old(activeText) && activeArrow == old(activeArrow)
    {
      if isEscape && (interMode == MovingDataX || interMode == MovingDataY) {
        ExitMoveDataMode();
      }
    }

    /**
     * A mouse press. In stacked mode a right press opens the move-data menu
     * (`menuShown`). A left press in a move-data mode picks the first graph
     * of the clicked axis rect, if a rect was clicked (`clickedRectGraphs`);
     * otherwise it starts the drag the hit selects, or none.
     */
    method OnPlotMousePress(button: MouseButton, clickedRectGraphs: Option<seq<Graph>>, hit: Hit) returns (menuShown: bool)
      requires Valid()
      modifies this
      ensures Valid()
      ensures menuShown <==> button == RightButton && chartMode == Stacked
      ensures button != LeftButton ==> interMode == old(interMode) && movingGraph == old(movingGraph)
      ensures button == LeftButton && IsMoving(old(interMode)) ==>
        interMode == old(interMode)
        && movingGraph == (if clickedRectGraphs.None? then old(movingGraph)
                           else if clickedRectGraphs.value == [] then null
                           else clickedRectGraphs.value[0])
      ensures button == LeftButton && !IsMoving(old(interMode)) ==>
        interMode == DragModeOf(hit) && movingGraph == old(movingGraph)
        && activeText == (if hit.OnText? then hit.text else null)
        && activeArrow == (if hit.OnArrowStart? || hit.OnArrowEnd? then hit.arrow else null)
        && activeLine == (if hit.OnLineStart? || hit.OnLineEnd? || hit.OnLineBody? then hit.line else null)
      ensures chartMode == old(chartMode) && topRect == old(topRect) && bottomRect == old(bottomRect)
      ensures plotRect == old(plotRect) && graphs == old(graphs) && items == old(items) && annotations == old(annotations)
      ensures !(button == LeftButton && !IsMoving(old(interMode))) ==>
        activeLine == old(activeLine) && activeText == old(activeText) && activeArrow == old(activeArrow)
    {
      menuShown := false;
      if button == RightButton {
        if chartMode == Stacked {
          menuShown := true;
          return;
        }
      }
      if button != LeftButton {
        return;
      }
      if interMode == MovingDataX || interMode == MovingDataY {
        if clickedRectGraphs.Some? {
          if |clickedRectGraphs.value| > 0 {
            movingGraph := clickedRectGraphs.value[0];
          } else {
            movingGraph := null;
          }
        }
        return;
      }
      StartDrag(hit);
    }

    /** A left press outside the move-data modes: the drag the hit selects, with its item made active. */
    method StartDrag(hit: Hit)
      requires Valid() && !IsMoving(interMode)
      modifies this
      ensures Valid()
      ensures interMode == DragModeOf(hit) && movingGraph == old(movingGraph)
      ensures activeText == (if hit.OnText? then hit.text else null)
      ensures activeArrow == (if hit.OnArrowStart? || hit.OnArrowEnd? then hit.arrow else null)
      ensures activeLine == (if hit.OnLineStart? || hit.OnLineEnd? || hit.OnLineBody? then hit.line else null)
      ensures chartMode == old(chartMode) && topRect == old(topRect) && bottomRect == old(bottomRect)
      ensures plotRect == old(plotRect) && graphs == old(graphs) && items == old(items) && annotations == old(annotations)
    {
      interMode := DragModeOf(hit);
      activeText := if hit.OnText? then hit.text else null;
      activeArrow := if hit.OnArrowStart? || hit.OnArrowEnd? then hit.arrow else null;
      activeLine := if hit.OnLineStart? || hit.OnLineEnd? || hit.OnLineBody? then hit.line else null;
    }

    /**
     * A mouse move with the left button held, in a move-data mode with a
     * graph picked: every key of the graph moves by `dx` (X mode) or every
     * value by `dy` (Y mode), in place. The offsets are the mouse movement in
     * data coordinates. The drags of texts, arrows and lines are not part of
     * this model.
     */
    method OnPlotMouseMove(leftHeld: bool, dx: real, dy: real)
      requires Valid()
      modifies if movingGraph != null then {movingGraph.data} else {}
      ensures leftHeld && movingGraph != null && interMode == MovingDataX ==>
        movingGraph.data[..] == ShiftKeys(old(movingGraph.data[..]), dx)
      ensures leftHeld && movingGraph != null && interMode == MovingDataY ==>
        movingGraph.data[..] == ShiftValues(old(movingGraph.data[..]), dy)
      ensures !leftHeld && movingGraph != null ==> movingGraph.data[..] == old(movingGraph.data[..])
    {
      if !leftHeld {
        return;
      }
      if (interMode == MovingDataX || interMode == MovingDataY) && movingGraph != null {
        var data := movingGraph.data;
        ghost var before := data[..];
        var i := 0;
        while i < data.Length
          invariant 0 <= i <= data.Length
          invariant interMode == MovingDataX ==> forall j :: 0 <= j < i ==> data[j] == Point(before[j].x + dx, before[j].y)
          invariant interMode == MovingDataY ==> forall j :: 0 <= j < i ==> data[j] == Point(before[j].x, before[j].y + dy)
          invariant forall j :: i <= j < data.Length ==> data[j] == before[j]
        {
          if interMode == MovingDataX {
            data[i] := Point(data[i].x + dx, data[i].y);
          } else {
            data[i] := Point(data[i].x, data[i].y + dy);
          }
          i := i + 1;
        }
        if interMode == MovingDataX {
          assert data[..] == ShiftKeys(before, dx);
        } else {
          assert data[..] == ShiftValues(before, dy);
        }
      }
    }

    /**
     * A mouse release. In a move-data mode the mode stays, the picked graph
     * is dropped and reported as modified (`modified`) if there was one; in
     * any other mode the interaction ends.
     */
    method OnPlotMouseRelease() returns (modified: Graph?)
      requires Valid()
      modifies this
      ensures Valid()
      ensures IsMoving(old(interMode)) ==> interMode == old(interMode) && movingGraph == null && modified == old(movingGraph)
      ensures !IsMoving(old(interMode)) ==> interMode == NoInteraction && movingGraph == old(movingGraph) && modified == null
      ensures chartMode == old(chartMode) && topRect == old(topRect) && bottomRect == old(bottomRect)
      ensures plotRect == old(plotRect) && graphs == old(graphs) && items == old(items) && annotations == old(annotations)
      ensures activeLine == old(activeLine) && activeText == old(activeText) && activeArrow == old(activeArrow)
    {
      modified := null;
      if interMode == MovingDataX || interMode == MovingDataY {
        if movingGraph != null {
          modified := movingGraph;
        }
        movingGraph := null;
      } else {
        interMode := NoInteraction;
      }
    }

    /**
     * Annotates a characteristic line. Any annotation the line has is taken
     * out of the table and its text and arrow removed from the plot; then,
     * unless the prompt is cancelled or left empty (`entered`), a new text
     * and arrow are created and filed as the line's annotation.
     */
    method AddAnnotationToLine(line: ItemLine?, entered: Option<string>)
      requires Valid()
      modifies this
      ensures Valid()
      ensures line == null ==> items == old(items) && annotations == old(annotations)
      ensures line != null && (entered.None? || entered.value == "") ==>
        annotations == old(annotations) - {line} && items == old(items) - NoteItems(old(annotations), line)
      ensures line != null && entered.Some? && entered.value != "" ==>
        line in annotations && annotations - {line} == old(annotations) - {line}
        && fresh(annotations[line].textItem) && fresh(annotations[line].arrowItem)
        && annotations[line].textItem.text == entered.value && !annotations[line].arrowItem.characteristic
        && items == old(items) - NoteItems(old(annotations), line) + NoteItems(annotations, line)
      ensures AnnotationsLive(old(annotations), old(items)) && NotesDisjoint(old(annotations)) ==>
        AnnotationsLive(annotations, items) && NotesDisjoint(annotations)
      ensures chartMode == old(chartMode) && interMode == old(interMode) && movingGraph == old(movingGraph)
      ensures topRect == old(topRect) && bottomRect == old(bottomRect) && plotRect == old(plotRect) && graphs == old(graphs)
      ensures activeLine == old(activeLine) && activeText == old(activeText) && activeArrow == old(activeArrow)
    {
      if line == null {
        return;
      }
      ghost var wasSound := AnnotationsLive(annotations, items) && NotesDisjoint(annotations);
      if wasSound {
        TakeNoteKeepsLive(annotations, items, line);
      }
      items := items - NoteItems(annotations, line);
      annotations := annotations - {line};
      if entered.None? || entered.value == "" {
        return;
      }
      var txt := new TextItem(entered.value);
      var arr := new ItemLine(false);
      var note := Annotation(txt, arr);
      if wasSound {
        AddNoteKeepsLive(annotations, items, line, note);
      }
      annotations := annotations[line := note];
      items := items + NoteItems(annotations, line);
    }

    /** Deletes the selected items, as written: the annotation table is left as it is. */
    method DeleteSelectedItems(selected: set<object>)
      requires Valid()
      modifies this
      ensures Valid()
      ensures items == old(items) - selected && annotations == old(annotations)
      ensures chartMode == old(chartMode) && interMode == old(interMode) && movingGraph == old(movingGraph)
      ensures topRect == old(topRect) && bottomRect == old(bottomRect) && plotRect == old(plotRect) && graphs == old(graphs)
      ensures activeLine == old(activeLine) && activeText == old(activeText) && activeArrow == old(activeArrow)
    {
      items := items - selected;
    }

    /** Deletes the selected items and drops the annotations that refer to them. */
    method DeleteSelectedItemsKeepingAnnotations(selected: set<object>)
      requires Valid()
      modifies this
      ensures Valid()
      ensures items == old(items) - selected
      ensures annotations == PrunedAnnotations(old(annotations), selected)
      ensures AnnotationsLive(old(annotations), old(items)) ==> AnnotationsLive(annotations, items)
      ensures chartMode == old(chartMode) && interMode == old(interMode) && movingGraph == old(movingGraph)
      ensures topRect == old(topRect) && bottomRect == old(bottomRect) && plotRect == old(plotRect) && graphs == old(graphs)
      ensures activeLine == old(activeLine) && activeText == old(activeText) && activeArrow == old(activeArrow)
    {
      if AnnotationsLive(annotations, items) {
        PruneKeepsAnnotationsLive(annotations, items, selected);
      }
      items := items - selected;
      annotations := PrunedAnnotations(annotations, selected);
    }
  }

  /** In every valid state the top rect exists, and the bottom rect exists exactly in stacked mode, apart from the top one. */
  lemma RectsFollowMode(w: ChartWidget)
    requires w.Valid()
    ensures w.GetTopRect() != null
    ensures w.GetBottomRect() != null <==> w.chartMode == Stacked
    ensures w.chartMode == Stacked ==> w.GetTopRect() != w.GetBottomRect()
    ensures w.chartMode == Single ==> w.GetTopRect() == w.plotRect
    ensures w.chartMode == Stacked ==> w.GetTopRect() == w.topRect && w.GetBottomRect() == w.bottomRect
  {
  }

  /** Annotating a line and then deleting the annotation's text leaves the table pointing at a removed item. */
  method DanglingAnnotationScenario() returns (w: ChartWidget)
    ensures w.Valid() && !AnnotationsLive(w.annotations, w.items)
  {
    w := new ChartWidget();
    var line := new ItemLine(true);
    w.AddAnnotationToLine(line, Some("k=1"));
    var note := w.annotations[line];
    w.DeleteSelectedItems({note.textItem});
    DeleteLeavesDanglingAnnotation(w.annotations, w.items + {note.textItem}, line);
    assert w.items == (w.items + {note.textItem}) - {note.textItem};
  }
}
