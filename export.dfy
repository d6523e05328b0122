// Data export of the displayed curve (WT_PlottingWidget::executeExport and
// the endpoint ordering of onGraphClicked, wt_plottingwidget.cpp): which
// samples are written, with which columns, for a full or a partial export.

module Export {
  import opened Common

  /** The two clicked keys, swapped when the first is the larger. */
  function OrderEndpoints(start: real, end: real): (r: (real, real))
    ensures r.0 <= r.1
    ensures r == (start, end) || r == (end, start)
    ensures start <= end ==> r == (start, end)
  {
    if start > end then (end, start) else (start, end)
  }

  /** A full export, or a partial one between two keys. */
  datatype Range = All | Between(start: real, end: real)

  /**
   * One written line: the time column (shifted by the range start in a
   * partial export), the value columns, and the original time that only a
   * partial export appends.
   */
  datatype ExportRow = ExportRow(time: real, values: seq<real>, origTime: Option<real>)

  /**
   * Where the samples come from. In stacked mode, the pressure graph, with the
   * production value at each time looked up in the production graph (that
   * lookup is not part of this model and is a parameter); a stacked chart
   * missing either graph writes nothing. Otherwise the first graph of the
   * plot or, when the plot has none, the curve's stored vectors.
   */
  datatype ExportSource =
    | StackedGraphs(pressure: seq<Point>, production: real -> real)
    | StackedGraphMissing
    | FirstGraph(data: seq<Point>)
    | StoredVectors(xData: seq<real>, yData: seq<real>)

  /** The stored vectors are read pairwise up to the length of the time vector. */
  predicate Readable(src: ExportSource)
  {
    src.StoredVectors? ==> |src.yData| >= |src.xData|
  }

  /** The samples an export walks through, in order. */
  function Samples(src: ExportSource): (pts: seq<Point>)
    requires Readable(src)
    ensures src.StoredVectors? ==> |pts| == |src.xData|
  {
    match src
    case StackedGraphs(pressure, _) => pressure
    case StackedGraphMissing => []
    case FirstGraph(data) => data
    case StoredVectors(xData, yData) => Zip(xData, yData)
  }

  /** The value columns of one sample: pressure and production in stacked mode, the value otherwise. */
  function ValuesAt(src: ExportSource, pt: Point): seq<real>
  {
    if src.StackedGraphs? then [pt.y, src.production(pt.x)] else [pt.y]
  }

  /** A partial export skips a sample whose time is before the start or after the end. */
  predicate InRange(range: Range, t: real)
  {
    range.All? || !(t < range.start || t > range.end)
  }

  /** The line one sample produces, if any. */
  function LineFor(src: ExportSource, range: Range, pt: Point): Option<ExportRow>
  {
    if !InRange(range, pt.x) then None
    else if range.All? then Some(ExportRow(pt.x, ValuesAt(src, pt), None))
    else Some(ExportRow(pt.x - range.start, ValuesAt(src, pt), Some(pt.x)))
  }

  function LineOf(src: ExportSource, range: Range): Point -> Option<ExportRow>
  {
    (pt: Point) => LineFor(src, range, pt)
  }

  /** The column titles written first. */
  function Header(src: ExportSource, range: Range): seq<string>
  {
    if src.StackedGraphs? then
      if range.All? then ["Time", "P", "Q"] else ["AdjTime", "P", "Q", "OrigTime"]
    else
      if range.All? then ["Time", "Value"] else ["AdjTime", "Value", "OrigTime"]
  }

  datatype ExportTable = ExportTable(header: seq<string>, rows: seq<ExportRow>)

  /** What an export writes, None when it writes nothing. */
  function ExportedTable(src: ExportSource, range: Range): Option<ExportTable>
    requires Readable(src)
  {
    if src.StackedGraphMissing? then None
    else Some(ExportTable(Header(src, range), FilterMap(Samples(src), LineOf(src, range))))
  }

  /** An export once a file is chosen and open: the header of its mode, then the sample lines. */
  method ExecuteExport(src: ExportSource, range: Range) returns (table: Option<ExportTable>)
    requires Readable(src)
    ensures table == ExportedTable(src, range)
  {
    if src.StackedGraphMissing? {
      return None;
    }
    var header: seq<string>;
    if src.StackedGraphs? {
      header := if range.All? then ["Time", "P", "Q"] else ["AdjTime", "P", "Q", "OrigTime"];
    } else {
      header := if range.All? then ["Time", "Value"] else ["AdjTime", "Value", "OrigTime"];
    }
    var rows := WriteLines(src, range, Samples(src));
    table := Some(ExportTable(header, rows));
  }

  /** The writing loop: a line per sample, skipping samples outside a partial range. */
  method WriteLines(src: ExportSource, range: Range, samples: seq<Point>) returns (rows: seq<ExportRow>)
    ensures rows == FilterMap(samples, LineOf(src, range))
  {
    rows := [];
    var i := 0;
    while i < |samples|
      invariant 0 <= i <= |samples|
      invariant rows == FilterMap(samples[..i], LineOf(src, range))
    {
      var pt := samples[i];
      WriteLineStep(src, range, samples[..i], pt);
      assert samples[..i + 1] == samples[..i] + [pt];
      var t := pt.x;
      if range.Between? && (t < range.start || t > range.end) {
        i := i + 1;
        continue;
      }
      var values := if src.StackedGraphs? then [pt.y, src.production(t)] else [pt.y];
      if range.All? {
        rows := rows + [ExportRow(t, values, None)];
      } else {
        rows := rows + [ExportRow(t - range.start, values, Some(t))];
      }
      i := i + 1;
    }
    assert samples[..|samples|] == samples;
  }

  /** One more sample adds its line when it is in range and nothing otherwise. */
  lemma WriteLineStep(src: ExportSource, range: Range, done: seq<Point>, pt: Point)
    ensures FilterMap(done + [pt], LineOf(src, range)) ==
      FilterMap(done, LineOf(src, range)) + (if InRange(range, pt.x) then [LineFor(src, range, pt).value] else [])
  {
    FilterMapSnoc(done, pt, LineOf(src, range));
  }

  /**
   * A partial export writes, in order, exactly the samples with
   * start <= t <= end, each with time t - start (between 0 and end - start)
   * and its original time t.
   */
  lemma {:induction false} PartialExportSelectsRange(src: ExportSource, start: real, end: real)
    requires Readable(src) && !src.StackedGraphMissing?
    ensures var samples := Samples(src);
      var rows := ExportedTable(src, Between(start, end)).value.rows;
      var idx := KeptIndices(samples, LineOf(src, Between(start, end)));
      && |idx| == |rows|
      && (forall k, l :: 0 <= k < l < |idx| ==> idx[k] < idx[l])
      && (forall k :: 0 <= k < |rows| ==>
            idx[k] < |samples| && start <= samples[idx[k]].x <= end
            && rows[k] == ExportRow(samples[idx[k]].x - start, ValuesAt(src, samples[idx[k]]), Some(samples[idx[k]].x))
            && 0.0 <= rows[k].time <= end - start)
      && (forall i :: 0 <= i < |samples| ==> (start <= samples[i].x <= end <==> i in idx))
  {
    var samples := Samples(src);
    var line := LineOf(src, Between(start, end));
    var rows := FilterMap(samples, line);
    var idx := KeptIndices(samples, line);
    forall k | 0 <= k < |rows|
      ensures idx[k] < |samples| && start <= samples[idx[k]].x <= end
      ensures rows[k] == ExportRow(samples[idx[k]].x - start, ValuesAt(src, samples[idx[k]]), Some(samples[idx[k]].x))
    {
      assert line(samples[idx[k]]) == Some(rows[k]);
      PartialLine(src, start, end, samples[idx[k]]);
    }
    forall i | 0 <= i < |samples| ensures start <= samples[i].x <= end <==> i in idx {
      assert line(samples[i]).Some? <==> i in idx;
      PartialLine(src, start, end, samples[i]);
    }
  }

  /** The line a partial export writes for one sample. */
  lemma PartialLine(src: ExportSource, start: real, end: real, pt: Point)
    ensures LineOf(src, Between(start, end))(pt) == LineFor(src, Between(start, end), pt)
    ensures LineFor(src, Between(start, end), pt).Some? <==> start <= pt.x <= end
    ensures LineFor(src, Between(start, end), pt).Some? ==>
      LineFor(src, Between(start, end), pt).value == ExportRow(pt.x - start, ValuesAt(src, pt), Some(pt.x))
  {
  }

  /** A full export writes every sample, in order, with its own time and no original-time column. */
  lemma FullExportWritesAll(src: ExportSource)
    requires Readable(src) && !src.StackedGraphMissing?
    ensures var samples := Samples(src);
      var rows := ExportedTable(src, All).value.rows;
      && |rows| == |samples|
      && forall i :: 0 <= i < |samples| ==> rows[i] == ExportRow(samples[i].x, ValuesAt(src, samples[i]), None)
  {
    var samples := Samples(src);
    var line := LineOf(src, All);
    assert forall i :: 0 <= i < |samples| ==> line(samples[i]) == Some(ExportRow(samples[i].x, ValuesAt(src, samples[i]), None));
    FilterMapKeepsAll(samples, line);
  }

  /** Exporting with the ends clicked in either order writes the same table. */
  lemma ExportIgnoresClickOrder(src: ExportSource, a: real, b: real)
    requires Readable(src)
    ensures var (s1, e1) := OrderEndpoints(a, b);
      var (s2, e2) := OrderEndpoints(b, a);
      ExportedTable(src, Between(s1, e1)) == ExportedTable(src, Between(s2, e2))
  {
  }
}
