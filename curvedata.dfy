// Curve data built from a data table: the row filters of the curve editor
// and of new single curves, the pressure-drop (delta p) series of the
// derivative curve, and the call of the derivative engine
// (WT_PlottingWidget::on_btn_Manage_clicked, on_btn_NewCurve_clicked and
// on_btn_Derivative_clicked, wt_plottingwidget.cpp).

module CurveData {
  import opened Common

  /**
   * One row of a data table as the loops see it: the cell of the X column and
   * the cell of the Y column, None where the table has no item. Cell texts are
   * taken as already converted to numbers.
   */
  datatype Row = Row(x: Option<real>, y: Option<real>)

  /** Curve type of a pressure-derivative curve (0 is a single curve, 1 a pressure/rate chart). */
  const DerivativeCurve: int := 2

  /** Drawdown test; every other test type is treated as a buildup. */
  const Drawdown: int := 0

  // ---------------------------------------------------------------------------
  // Row filters
  // ---------------------------------------------------------------------------

  /** Single and pressure/rate curves keep rows with both values above 1e-9; derivative curves keep rows with a positive time. */
  predicate KeepsRow(curveType: int, x: real, y: real)
  {
    if curveType != DerivativeCurve then x > Epsilon && y > Epsilon else x > 0.0
  }

  /** What one table row contributes to a curve of the given type. */
  function FilterRow(curveType: int, r: Row): Option<Point>
  {
    if r.x.Some? && r.y.Some? && KeepsRow(curveType, r.x.value, r.y.value)
    then Some(Point(r.x.value, r.y.value)) else None
  }

  function RowFilter(curveType: int): Row -> Option<Point>
  {
    (r: Row) => FilterRow(curveType, r)
  }

  /** The points a curve of the given type reads from a table. */
  function FilteredRows(rows: seq<Row>, curveType: int): seq<Point>
  {
    FilterMap(rows, RowFilter(curveType))
  }

  /** The reading loop of the curve editor (and, with a non-derivative type, of a new single curve). */
  method FilterRows(rows: seq<Row>, curveType: int) returns (xs: seq<real>, ys: seq<real>)
    ensures xs == Xs(FilteredRows(rows, curveType))
    ensures ys == Ys(FilteredRows(rows, curveType))
  {
    xs, ys := [], [];
    var i := 0;
    while i < |rows|
      invariant 0 <= i <= |rows|
      invariant xs == Xs(FilteredRows(rows[..i], curveType))
      invariant ys == Ys(FilteredRows(rows[..i], curveType))
    {
      FilterMapSnoc(rows[..i], rows[i], RowFilter(curveType));
      assert rows[..i + 1] == rows[..i] + [rows[i]];
      var row := rows[i];
      if row.x.Some? && row.y.Some? {
        var xVal, yVal := row.x.value, row.y.value;
        XsYsSnoc(FilteredRows(rows[..i], curveType), Point(xVal, yVal));
        if curveType != DerivativeCurve {
          if xVal > Epsilon && yVal > Epsilon {
            xs := xs + [xVal];
            ys := ys + [yVal];
          }
        } else {
          if xVal > 0.0 {
            xs := xs + [xVal];
            ys := ys + [yVal];
          }
        }
      }
      i := i + 1;
    }
    assert rows[..|rows|] == rows;
  }

  /**
   * The filtered curve is the subsequence, in table order, of the complete
   * rows that pass the filter: each kept point is the cells of a row that
   * passes, and every such row is kept.
   */
  lemma {:induction false} FilteredRowsExact(rows: seq<Row>, curveType: int)
    ensures var out := FilteredRows(rows, curveType);
      var idx := KeptIndices(rows, RowFilter(curveType));
      && |idx| == |out|
      && (forall k, l :: 0 <= k < l < |idx| ==> idx[k] < idx[l])
      && (forall k :: 0 <= k < |out| ==>
            idx[k] < |rows| && rows[idx[k]] == Row(Some(out[k].x), Some(out[k].y))
            && KeepsRow(curveType, out[k].x, out[k].y))
      && (forall i :: 0 <= i < |rows| ==>
            (rows[i].x.Some? && rows[i].y.Some? && KeepsRow(curveType, rows[i].x.value, rows[i].y.value)
             <==> i in idx))
  {
    var out := FilteredRows(rows, curveType);
    var idx := KeptIndices(rows, RowFilter(curveType));
    forall k | 0 <= k < |out|
      ensures idx[k] < |rows| && rows[idx[k]] == Row(Some(out[k].x), Some(out[k].y))
      ensures KeepsRow(curveType, out[k].x, out[k].y)
    {
      assert RowFilter(curveType)(rows[idx[k]]) == Some(out[k]);
    }
    forall i | 0 <= i < |rows|
      ensures rows[i].x.Some? && rows[i].y.Some? && KeepsRow(curveType, rows[i].x.value, rows[i].y.value) <==> i in idx
    {
      assert RowFilter(curveType)(rows[i]).Some? <==> i in idx;
    }
  }

  // ---------------------------------------------------------------------------
  // Pressure-drop series
  // ---------------------------------------------------------------------------

  /** Drawdown: |p_initial - p|; buildup: |p - p_shutin|. */
  function DeltaP(testType: int, initialPressure: real, pShutin: real, p: real): (dp: real)
    ensures dp >= 0.0
    ensures testType == Drawdown ==> (dp == initialPressure - p || dp == p - initialPressure)
    ensures testType != Drawdown ==> (dp == p - pShutin || dp == pShutin - p)
  {
    if testType == Drawdown then Abs(initialPressure - p) else Abs(p - pShutin)
  }

  /** A (time, pressure) sample becomes a (time, dp) point when both are positive. */
  function Drop(testType: int, initialPressure: real, pShutin: real, pt: Point): Option<Point>
  {
    var dp := DeltaP(testType, initialPressure, pShutin, pt.y);
    if pt.x > 0.0 && dp > 0.0 then Some(Point(pt.x, dp)) else None
  }

  function DropOf(testType: int, initialPressure: real, pShutin: real): Point -> Option<Point>
  {
    (pt: Point) => Drop(testType, initialPressure, pShutin, pt)
  }

  /** In the curve editor the shut-in pressure is the first pressure of the vector (0 when it is empty). */
  function VectorShutIn(rawP: seq<real>): real
  {
    if rawP == [] then 0.0 else rawP[0]
  }

  /** The pressure-drop curve the editor computes from its time and pressure vectors. */
  function VectorDropSeries(rawT: seq<real>, rawP: seq<real>, testType: int, initialPressure: real): seq<Point>
  {
    FilterMap(Zip(rawT, rawP), DropOf(testType, initialPressure, VectorShutIn(rawP)))
  }

  /** The delta-p loop of the curve editor, bounded by both vector sizes. */
  method PressureDropFromVectors(rawT: seq<real>, rawP: seq<real>, testType: int, initialPressure: real)
    returns (xs: seq<real>, ys: seq<real>)
    ensures xs == Xs(VectorDropSeries(rawT, rawP, testType, initialPressure))
    ensures ys == Ys(VectorDropSeries(rawT, rawP, testType, initialPressure))
  {
    var pShutin := if rawP == [] then 0.0 else rawP[0];
    ghost var keep := DropOf(testType, initialPressure, pShutin);
    xs, ys := [], [];
    var i := 0;
    while i < |rawT|
      invariant 0 <= i <= Min(|rawT|, |rawP|)
      invariant xs == Xs(FilterMap(Zip(rawT, rawP)[..i], keep)) && ys == Ys(FilterMap(Zip(rawT, rawP)[..i], keep))
    {
      if i >= |rawP| {
        break;
      }
      VectorDropStep(rawT, rawP, i, testType, initialPressure, pShutin);
      var t := rawT[i];
      var p := rawP[i];
      var dp := if testType == Drawdown then Abs(initialPressure - p) else Abs(p - pShutin);
      if t > 0.0 && dp > 0.0 {
        xs := xs + [t];
        ys := ys + [dp];
      }
      i := i + 1;
    }
    VectorDropDone(rawT, rawP, i);
  }

  /** The i-th pass of the editor's delta-p loop appends sample i's time and delta p when both are positive. */
  lemma VectorDropStep(rawT: seq<real>, rawP: seq<real>, i: nat, testType: int, initialPressure: real, pShutin: real)
    requires i < |rawT| && i < |rawP|
    ensures var pts, keep := Zip(rawT, rawP), DropOf(testType, initialPressure, pShutin);
      var dp := DeltaP(testType, initialPressure, pShutin, rawP[i]);
      && Xs(FilterMap(pts[..i + 1], keep)) == Xs(FilterMap(pts[..i], keep)) + (if rawT[i] > 0.0 && dp > 0.0 then [rawT[i]] else [])
      && Ys(FilterMap(pts[..i + 1], keep)) == Ys(FilterMap(pts[..i], keep)) + (if rawT[i] > 0.0 && dp > 0.0 then [dp] else [])
  {
    var pts := Zip(rawT, rawP);
    assert pts[..i + 1] == pts[..i] + [Point(rawT[i], rawP[i])];
    DropStep(pts[..i], Point(rawT[i], rawP[i]), testType, initialPressure, pShutin);
  }

  /** The editor's delta-p loop stops at the shorter vector, having read every sample. */
  lemma VectorDropDone(rawT: seq<real>, rawP: seq<real>, i: nat)
    requires i <= Min(|rawT|, |rawP|) && (i >= |rawT| || i >= |rawP|)
    ensures Zip(rawT, rawP)[..i] == Zip(rawT, rawP)
  {
  }

  /** One more sample adds its time and delta p when both are positive, and nothing otherwise. */
  lemma DropStep(done: seq<Point>, pt: Point, testType: int, initialPressure: real, pShutin: real)
    ensures var keep, dp := DropOf(testType, initialPressure, pShutin), DeltaP(testType, initialPressure, pShutin, pt.y);
      && Xs(FilterMap(done + [pt], keep)) == Xs(FilterMap(done, keep)) + (if pt.x > 0.0 && dp > 0.0 then [pt.x] else [])
      && Ys(FilterMap(done + [pt], keep)) == Ys(FilterMap(done, keep)) + (if pt.x > 0.0 && dp > 0.0 then [dp] else [])
  {
    var keep := DropOf(testType, initialPressure, pShutin);
    FilterMapSnoc(done, pt, keep);
    XsYsSnoc(FilterMap(done, keep), Point(pt.x, DeltaP(testType, initialPressure, pShutin, pt.y)));
  }

  /** When a curve is created the shut-in pressure is the pressure cell of the first table row (0 when there is none). */
  function TableShutIn(rows: seq<Row>): real
  {
    if rows != [] && rows[0].y.Some? then rows[0].y.value else 0.0
  }

  /** What one table row contributes to a new pressure-drop curve. */
  function RowDrop(testType: int, initialPressure: real, pShutin: real, r: Row): Option<Point>
  {
    if r.x.Some? && r.y.Some? then Drop(testType, initialPressure, pShutin, Point(r.x.value, r.y.value)) else None
  }

  function RowDropOf(testType: int, initialPressure: real, pShutin: real): Row -> Option<Point>
  {
    (r: Row) => RowDrop(testType, initialPressure, pShutin, r)
  }

  /** The pressure-drop curve of a new derivative curve. */
  function TableDropSeries(rows: seq<Row>, testType: int, initialPressure: real): seq<Point>
  {
    FilterMap(rows, RowDropOf(testType, initialPressure, TableShutIn(rows)))
  }

  /** One more row adds its time and delta p when both cells exist and both values are positive, and nothing otherwise. */
  lemma RowDropStep(done: seq<Row>, r: Row, testType: int, initialPressure: real, pShutin: real)
    ensures var keep := RowDropOf(testType, initialPressure, pShutin);
      var kept := r.x.Some? && r.y.Some? && r.x.value > 0.0 && DeltaP(testType, initialPressure, pShutin, r.y.value) > 0.0;
      && Xs(FilterMap(done + [r], keep)) == Xs(FilterMap(done, keep)) + (if kept then [r.x.value] else [])
      && Ys(FilterMap(done + [r], keep)) == Ys(FilterMap(done, keep))
           + (if kept then [DeltaP(testType, initialPressure, pShutin, r.y.value)] else [])
  {
    var keep := RowDropOf(testType, initialPressure, pShutin);
    FilterMapSnoc(done, r, keep);
    if r.x.Some? && r.y.Some? {
      XsYsSnoc(FilterMap(done, keep), Point(r.x.value, DeltaP(testType, initialPressure, pShutin, r.y.value)));
    }
  }

  /** The delta-p loop that reads a new derivative curve from its table. */
  method PressureDropFromTable(rows: seq<Row>, testType: int, initialPressure: real)
    returns (xs: seq<real>, ys: seq<real>)
    ensures xs == Xs(TableDropSeries(rows, testType, initialPressure))
    ensures ys == Ys(TableDropSeries(rows, testType, initialPressure))
  {
    var pShutin := 0.0;
    if |rows| > 0 {
      if rows[0].y.Some? {
        pShutin := rows[0].y.value;
      }
    }
    ghost var keep := RowDropOf(testType, initialPressure, pShutin);
    xs, ys := [], [];
    var i := 0;
    while i < |rows|
      invariant 0 <= i <= |rows|
      invariant xs == Xs(FilterMap(rows[..i], keep)) && ys == Ys(FilterMap(rows[..i], keep))
    {
      RowDropStep(rows[..i], rows[i], testType, initialPressure, pShutin);
      assert rows[..i + 1] == rows[..i] + [rows[i]];
      var row := rows[i];
      if row.x.Some? && row.y.Some? {
        var t, p := row.x.value, row.y.value;
        var dp := if testType == Drawdown then Abs(initialPressure - p) else Abs(p - pShutin);
        if t > 0.0 && dp > 0.0 {
          xs := xs + [t];
          ys := ys + [dp];
        }
      }
      i := i + 1;
    }
    assert rows[..|rows|] == rows;
  }

  /**
   * The editor's pressure-drop curve is the subsequence, in order, of the
   * samples below both vector lengths whose time and delta p are positive,
   * each with its delta p in place of its pressure.
   */
  lemma {:induction false} VectorDropSeriesExact(rawT: seq<real>, rawP: seq<real>, testType: int, initialPressure: real)
    ensures var out := VectorDropSeries(rawT, rawP, testType, initialPressure);
      var idx := KeptIndices(Zip(rawT, rawP), DropOf(testType, initialPressure, VectorShutIn(rawP)));
      var dp := (p: real) => DeltaP(testType, initialPressure, VectorShutIn(rawP), p);
      && |idx| == |out|
      && (forall k, l :: 0 <= k < l < |idx| ==> idx[k] < idx[l])
      && (forall k :: 0 <= k < |out| ==>
            idx[k] < Min(|rawT|, |rawP|) && out[k] == Point(rawT[idx[k]], dp(rawP[idx[k]]))
            && out[k].x > 0.0 && out[k].y > 0.0)
      && (forall i :: 0 <= i < Min(|rawT|, |rawP|) ==> (rawT[i] > 0.0 && dp(rawP[i]) > 0.0 <==> i in idx))
  {
    var pts := Zip(rawT, rawP);
    var keep := DropOf(testType, initialPressure, VectorShutIn(rawP));
    var out := VectorDropSeries(rawT, rawP, testType, initialPressure);
    var idx := KeptIndices(pts, keep);
    forall k | 0 <= k < |out|
      ensures idx[k] < Min(|rawT|, |rawP|)
      ensures out[k] == Point(rawT[idx[k]], DeltaP(testType, initialPressure, VectorShutIn(rawP), rawP[idx[k]]))
      ensures out[k].x > 0.0 && out[k].y > 0.0
    {
      assert keep(pts[idx[k]]) == Some(out[k]);
    }
    forall i | 0 <= i < Min(|rawT|, |rawP|)
      ensures rawT[i] > 0.0 && DeltaP(testType, initialPressure, VectorShutIn(rawP), rawP[i]) > 0.0 <==> i in idx
    {
      assert keep(pts[i]).Some? <==> i in idx;
    }
  }

  /** Increasing times stay increasing in the pressure-drop curve, as the derivative engine expects of its input. */
  lemma {:induction false} VectorDropSeriesKeepsTimeOrder(rawT: seq<real>, rawP: seq<real>, testType: int, initialPressure: real)
    requires Sorted(rawT)
    ensures Sorted(Xs(VectorDropSeries(rawT, rawP, testType, initialPressure)))
  {
    VectorDropSeriesExact(rawT, rawP, testType, initialPressure);
    var out := VectorDropSeries(rawT, rawP, testType, initialPressure);
    var idx := KeptIndices(Zip(rawT, rawP), DropOf(testType, initialPressure, VectorShutIn(rawP)));
    var xs := Xs(out);
    forall k, l | 0 <= k < l < |xs| ensures xs[k] < xs[l] {
      assert xs[k] == rawT[idx[k]] && xs[l] == rawT[idx[l]];
    }
  }

  /** In a buildup the reference sample itself has delta p = 0 and is never plotted. */
  lemma BuildupDropsReferenceSample(rawT: seq<real>, rawP: seq<real>, testType: int, initialPressure: real)
    requires testType != Drawdown && rawT != [] && rawP != []
    ensures 0 !in KeptIndices(Zip(rawT, rawP), DropOf(testType, initialPressure, VectorShutIn(rawP)))
  {
    var pts := Zip(rawT, rawP);
    assert DropOf(testType, initialPressure, VectorShutIn(rawP))(pts[0]) == None;
  }

  /**
   * A new derivative curve is the subsequence, in table order, of the complete
   * rows whose time and delta p are positive, delta p measured from the first
   * row's pressure in a buildup.
   */
  lemma {:induction false} TableDropSeriesExact(rows: seq<Row>, testType: int, initialPressure: real)
    ensures var out := TableDropSeries(rows, testType, initialPressure);
      var idx := KeptIndices(rows, RowDropOf(testType, initialPressure, TableShutIn(rows)));
      var dp := (p: real) => DeltaP(testType, initialPressure, TableShutIn(rows), p);
      && |idx| == |out|
      && (forall k, l :: 0 <= k < l < |idx| ==> idx[k] < idx[l])
      && (forall k :: 0 <= k < |out| ==>
            idx[k] < |rows| && rows[idx[k]].x == Some(out[k].x) && rows[idx[k]].y.Some?
            && out[k].y == dp(rows[idx[k]].y.value) && out[k].x > 0.0 && out[k].y > 0.0)
      && (forall i :: 0 <= i < |rows| ==>
            (rows[i].x.Some? && rows[i].y.Some? && rows[i].x.value > 0.0 && dp(rows[i].y.value) > 0.0 <==> i in idx))
  {
    var keep := RowDropOf(testType, initialPressure, TableShutIn(rows));
    var out := TableDropSeries(rows, testType, initialPressure);
    var idx := KeptIndices(rows, keep);
    forall k | 0 <= k < |out|
      ensures idx[k] < |rows| && rows[idx[k]].x == Some(out[k].x) && rows[idx[k]].y.Some?
      ensures out[k].y == DeltaP(testType, initialPressure, TableShutIn(rows), rows[idx[k]].y.value)
      ensures out[k].x > 0.0 && out[k].y > 0.0
    {
      assert keep(rows[idx[k]]) == Some(out[k]);
    }
    forall i | 0 <= i < |rows|
      ensures (rows[i].x.Some? && rows[i].y.Some? && rows[i].x.value > 0.0
              && DeltaP(testType, initialPressure, TableShutIn(rows), rows[i].y.value) > 0.0) <==> i in idx
    {
      assert keep(rows[i]).Some? <==> i in idx;
    }
  }

  // ---------------------------------------------------------------------------
  // Derivative curve
  // ---------------------------------------------------------------------------

  /**
   * A new derivative curve: its pressure-drop vectors and its derivative. The
   * Bourdet derivative and the smoothing pass are not part of this model; they
   * are parameters and nothing is assumed about them.
   */
  method DerivativeCurveData(rows: seq<Row>, testType: int, initialPressure: real,
                             lSpacing: real, isSmooth: bool, smoothFactor: int,
                             bourdet: (seq<real>, seq<real>, real) -> seq<real>,
                             smooth: (seq<real>, int) -> seq<real>)
    returns (xs: seq<real>, ys: seq<real>, deriv: seq<real>)
    ensures xs == Xs(TableDropSeries(rows, testType, initialPressure))
    ensures ys == Ys(TableDropSeries(rows, testType, initialPressure))
    ensures deriv == if isSmooth then smooth(bourdet(xs, ys, lSpacing), smoothFactor) else bourdet(xs, ys, lSpacing)
  {
    xs, ys := PressureDropFromTable(rows, testType, initialPressure);
    deriv := bourdet(xs, ys, lSpacing);
    if isSmooth {
      deriv := smooth(deriv, smoothFactor);
    }
  }

  // ---------------------------------------------------------------------------
  // The curve editor's recomputation of a derivative curve
  // ---------------------------------------------------------------------------

  /**
   * The editor as written: it re-reads the table when the data file and both
   * columns are still available (`reload`), keeping rows with a positive time,
   * and otherwise starts from the stored vectors, which already hold delta p;
   * either way it applies the delta-p transform with the first remaining
   * pressure as shut-in pressure.
   */
  function ManageDropAsWritten(storedX: seq<real>, storedY: seq<real>, reload: Option<seq<Row>>,
                               testType: int, initialPressure: real): (seq<real>, seq<real>)
  {
    var rawT := if reload.Some? then Xs(FilteredRows(reload.value, DerivativeCurve)) else storedX;
    var rawP := if reload.Some? then Ys(FilteredRows(reload.value, DerivativeCurve)) else storedY;
    var out := VectorDropSeries(rawT, rawP, testType, initialPressure);
    (Xs(out), Ys(out))
  }

  /**
   * The derivative branch of on_btn_Manage_clicked, as written: the
   * pressure-drop vectors, then the derivative recomputed from them, with the
   * Bourdet derivative and smoothing as parameters.
   */
  method ManageDerivativeSeries(storedX: seq<real>, storedY: seq<real>, reload: Option<seq<Row>>,
                                testType: int, initialPressure: real,
                                lSpacing: real, isSmooth: bool, smoothFactor: int,
                                bourdet: (seq<real>, seq<real>, real) -> seq<real>,
                                smooth: (seq<real>, int) -> seq<real>)
    returns (xs: seq<real>, ys: seq<real>, deriv: seq<real>)
    ensures (xs, ys) == ManageDropAsWritten(storedX, storedY, reload, testType, initialPressure)
    ensures deriv == if isSmooth then smooth(bourdet(xs, ys, lSpacing), smoothFactor) else bourdet(xs, ys, lSpacing)
  {
    var rawT, rawP := storedX, storedY;
    if reload.Some? {
      rawT, rawP := FilterRows(reload.value, DerivativeCurve);
    }
    xs, ys := PressureDropFromVectors(rawT, rawP, testType, initialPressure);
    deriv := bourdet(xs, ys, lSpacing);
    if isSmooth {
      deriv := smooth(deriv, smoothFactor);
    }
  }

  /** A buildup table that starts at time 0 with the shut-in pressure, as buildup data usually do. */
  function BuildupTable(): seq<Row>
  {
    [Row(Some(0.0), Some(100.0)), Row(Some(1.0), Some(110.0)), Row(Some(2.0), Some(115.0))]
  }

  /**
   * Editing a buildup curve whose table starts at time 0 changes its
   * pressure-drop curve: creation measures from 100 (row 0), the editor from
   * 110 (the first row with a positive time), and the point at time 1 is lost.
   */
  lemma ManageMovesBuildupReference()
    ensures TableDropSeries(BuildupTable(), 1, 0.0) == [Point(1.0, 10.0), Point(2.0, 15.0)]
    ensures ManageDropAsWritten([1.0, 2.0], [10.0, 15.0], Some(BuildupTable()), 1, 0.0) == ([2.0], [5.0])
  {
    var r0, r1, r2 := Row(Some(0.0), Some(100.0)), Row(Some(1.0), Some(110.0)), Row(Some(2.0), Some(115.0));
    assert [] + [r0] == [r0] && [r0] + [r1] == [r0, r1] && [r0, r1] + [r2] == BuildupTable();
    // creation: delta p from row 0's pressure
    var created := RowDropOf(1, 0.0, 100.0);
    FilterMapSnoc([], r0, created);
    FilterMapSnoc([r0], r1, created);
    FilterMapSnoc([r0, r1], r2, created);
    // the editor: rows with a positive time, then delta p from the first of them
    var readBack := RowFilter(DerivativeCurve);
    FilterMapSnoc([], r0, readBack);
    FilterMapSnoc([r0], r1, readBack);
    FilterMapSnoc([r0, r1], r2, readBack);
    var kept := [Point(1.0, 110.0), Point(2.0, 115.0)];
    assert FilteredRows(BuildupTable(), DerivativeCurve) == kept;
    assert Xs(kept) == [1.0, 2.0] && Ys(kept) == [110.0, 115.0];
    // then delta p from 110: the sample at time 1 drops to 0 and is not kept
    var rawT, rawP := [1.0, 2.0], [110.0, 115.0];
    assert VectorShutIn(rawP) == 110.0;
    assert DeltaP(1, 0.0, 110.0, 110.0) == 0.0 && DeltaP(1, 0.0, 110.0, 115.0) == 5.0;
    VectorDropStep(rawT, rawP, 0, 1, 0.0, 110.0);
    VectorDropStep(rawT, rawP, 1, 1, 0.0, 110.0);
    VectorDropDone(rawT, rawP, 2);
    var pts, keep := Zip(rawT, rawP), DropOf(1, 0.0, 110.0);
    assert pts[..0] == [];
    assert Xs(FilterMap(pts[..0], keep)) == [] && Ys(FilterMap(pts[..0], keep)) == [];
    var out := VectorDropSeries(rawT, rawP, 1, 0.0);
    assert out == FilterMap(pts[..2], keep);
    assert Xs(out) == [2.0] && Ys(out) == [5.0];
  }

  /**
   * Editing a drawdown curve whose data file is not loaded applies the
   * delta-p transform to delta p again: a stored drop of 5 below an initial
   * pressure of 105 becomes 100.
   */
  lemma ManageReappliesDrop()
    ensures ManageDropAsWritten([1.0], [5.0], None, Drawdown, 105.0) == ([1.0], [100.0])
  {
    var rawT, rawP := [1.0], [5.0];
    assert VectorShutIn(rawP) == 5.0;
    assert DeltaP(Drawdown, 105.0, 5.0, 5.0) == 100.0;
    VectorDropStep(rawT, rawP, 0, Drawdown, 105.0, 5.0);
    VectorDropDone(rawT, rawP, 1);
    var pts, keep := Zip(rawT, rawP), DropOf(Drawdown, 105.0, 5.0);
    assert pts[..0] == [];
    assert Xs(FilterMap(pts[..0], keep)) == [] && Ys(FilterMap(pts[..0], keep)) == [];
    var out := VectorDropSeries(rawT, rawP, Drawdown, 105.0);
    assert out == FilterMap(pts[..1], keep);
    assert Xs(out) == [1.0] && Ys(out) == [100.0];
  }

  /**
   * The editor as evidently intended: it recomputes the pressure-drop curve
   * from the table exactly as creation does when the table is available, and
   * leaves the stored curve alone when it is not.
   */
  function ManagedDropSeries(storedX: seq<real>, storedY: seq<real>, reload: Option<seq<Row>>,
                             testType: int, initialPressure: real): (seq<real>, seq<real>)
  {
    if reload.Some? then
      var out := TableDropSeries(reload.value, testType, initialPressure);
      (Xs(out), Ys(out))
    else (storedX, storedY)
  }

  /**
   * The derivative branch of the editor as evidently intended: a reloaded
   * table goes through the same loop as creation, stored vectors are kept,
   * and the derivative is recomputed from the result.
   */
  method ManagedDerivativeSeries(storedX: seq<real>, storedY: seq<real>, reload: Option<seq<Row>>,
                                 testType: int, initialPressure: real,
                                 lSpacing: real, isSmooth: bool, smoothFactor: int,
                                 bourdet: (seq<real>, seq<real>, real) -> seq<real>,
                                 smooth: (seq<real>, int) -> seq<real>)
    returns (xs: seq<real>, ys: seq<real>, deriv: seq<real>)
    ensures (xs, ys) == ManagedDropSeries(storedX, storedY, reload, testType, initialPressure)
    ensures deriv == if isSmooth then smooth(bourdet(xs, ys, lSpacing), smoothFactor) else bourdet(xs, ys, lSpacing)
  {
    xs, ys := storedX, storedY;
    if reload.Some? {
      xs, ys := PressureDropFromTable(reload.value, testType, initialPressure);
    }
    deriv := bourdet(xs, ys, lSpacing);
    if isSmooth {
      deriv := smooth(deriv, smoothFactor);
    }
  }

  /** The corrected editor, run on the table or without it, leaves a freshly created curve unchanged. */
  lemma ManagedKeepsCreatedCurve(rows: seq<Row>, testType: int, initialPressure: real, reloaded: bool)
    ensures var out := TableDropSeries(rows, testType, initialPressure);
      ManagedDropSeries(Xs(out), Ys(out), if reloaded then Some(rows) else None, testType, initialPressure)
        == (Xs(out), Ys(out))
  {
  }
}
