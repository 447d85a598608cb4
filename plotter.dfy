/** plotter/plotter.go: the point arrays, panel layout and file names of the four plots. The
    gonum drawing itself is reduced to a description of what each plot holds. */
module Plotter {
  import opened Basics
  import opened Floats
  import GoStrings

  datatype Point = Point(x: Float, y: Float)

  datatype Color = RGBA(r: nat, g: nat, b: nat, a: nat) | Palette(index: nat) | NoColor

  /** What is added to a plot: a scatter of points, a histogram of values with a bin count,
      or a line through points in a colour. */
  datatype Item =
    | Scatter(points: seq<Point>)
    | Histogram(values: seq<Float>, bins: nat)
    | Line(points: seq<Point>, color: Color)

  datatype Plot = Plot(title: string, xLabel: string, yLabel: string, items: seq<Item>, legend: seq<string>)

  datatype Rect = Rect(minX: int, minY: int, maxX: int, maxY: int)

  datatype Panel = Panel(rect: Rect, plot: Plot)

  /** The pair-plot image: its size and the panel drawn in each (row, col) cell. */
  datatype Canvas = Canvas(width: int, height: int, cells: seq<seq<Panel>>)

  /** The conditions on which the code calls log.Fatalf or log.Panic. */
  datatype Error = LengthMismatch | ScatterRejected | LineRejected

  /** The pair-plot image and the file it is written to. */
  datatype Drawn = Drawn(canvas: Canvas, path: string)

  /** A plot and the file it is saved to. */
  datatype Saved = Saved(plot: Plot, path: string)

  const HistogramBins: nat := 16

  /** 4 * vg.Inch, in points. */
  const TileSize: int := 288

  const ModelPlotPath: string := "./plot/model_plot.png"

  const MetricsPlotPath: string := "./plot/comparison_metrics.png"

  const MetricsTitle: string := "Final Moving Average Loss Across Epochs"

  predicate NaNFreePoints(pts: seq<Point>)
  {
    forall i :: 0 <= i < |pts| ==> pts[i].x.Num? && pts[i].y.Num?
  }

  /** plotter.NewScatter and plotter.NewLine return an error for an empty point set and for a
      point with a NaN coordinate. */
  predicate Plottable(pts: seq<Point>)
  {
    |pts| > 0 && NaNFreePoints(pts)
  }

  // ---------------------------------------------------------------- PlotScatter

  /** The points of PlotScatter: one per x value, a NaN coordinate drawn at 0. */
  function ScatterPoints(xs: seq<Float>, ys: seq<Float>): (pts: seq<Point>)
    requires |xs| <= |ys|
    ensures |pts| == |xs|
    ensures NaNFreePoints(pts)
    ensures Plottable(pts) <==> |xs| > 0
  {
    seq(|xs|, i requires 0 <= i < |xs| => Point(ZeroIfNaN(xs[i]), ZeroIfNaN(ys[i])))
  }

  lemma ScatterPointAt(xs: seq<Float>, ys: seq<Float>, i: nat)
    requires |xs| <= |ys| && i < |xs|
    ensures ScatterPoints(xs, ys)[i].x == (if xs[i].NaN? then Zero else xs[i])
    ensures ScatterPoints(xs, ys)[i].y == (if ys[i].NaN? then Zero else ys[i])
  {
  }

  function ScatterPlot(xs: seq<Float>, ys: seq<Float>, xLabel: string, yLabel: string): Plot
    requires |xs| <= |ys|
  {
    Plot(yLabel + " vs " + xLabel, xLabel, yLabel, [Scatter(ScatterPoints(xs, ys))], [])
  }

  /** PlotScatter. Its points never hold a NaN, so NewScatter, and then log.Panic, fails only
      on an empty x series. */
  method PlotScatter(xData: array<Float>, yData: array<Float>, xLabel: string, yLabel: string)
    returns (r: Result<Plot, Error>)
    requires xData.Length <= yData.Length
    ensures r.Success? <==> xData.Length > 0
    ensures r.Failure? ==> r.error == ScatterRejected
    ensures r.Success? ==> r.value == ScatterPlot(xData[..], yData[..], xLabel, yLabel)
    ensures r.Success? ==> var p := r.value;
      && p.title == yLabel + " vs " + xLabel && p.xLabel == xLabel && p.yLabel == yLabel
      && |p.items| == 1 && p.items[0].Scatter? && Plottable(p.items[0].points)
      && |p.items[0].points| == xData.Length
  {
    var pts := new Point[xData.Length](_ => Point(Zero, Zero));
    for i := 0 to xData.Length
      invariant forall k :: 0 <= k < i ==> pts[k] == Point(ZeroIfNaN(xData[k]), ZeroIfNaN(yData[k]))
    {
      var x, y := xData[i], yData[i];
      if x.NaN? {
        x := Zero;
      }
      if y.NaN? {
        y := Zero;
      }
      pts[i] := Point(x, y);
    }
    assert pts[..] == ScatterPoints(xData[..], yData[..]);
    if !Plottable(pts[..]) {
      return Failure(ScatterRejected);
    }
    r := Success(Plot(yLabel + " vs " + xLabel, xLabel, yLabel, [Scatter(pts[..])], []));
  }

  // ---------------------------------------------------------------- PlotHistogram

  function HistogramPlot(values: seq<Float>, labelName: string): Plot
  {
    Plot("Distribution of " + labelName, labelName, "", [Histogram(ZeroNaNs(values), HistogramBins)], [])
  }

  /** PlotHistogram: rewrites every NaN of `data` to 0 in place, then bins it into 16 buckets. */
  method PlotHistogram(data: array<Float>, labelName: string) returns (p: Plot)
    modifies data
    ensures data[..] == ZeroNaNs(old(data[..]))
    ensures p == HistogramPlot(old(data[..]), labelName)
  {
    for i := 0 to data.Length
      invariant forall k :: 0 <= k < i ==> data[k] == ZeroIfNaN(old(data[k]))
      invariant forall k :: i <= k < data.Length ==> data[k] == old(data[k])
    {
      if data[i].NaN? {
        data[i] := Zero;
      }
    }
    p := Plot("Distribution of " + labelName, labelName, "", [Histogram(data[..], HistogramBins)], []);
  }

  // ---------------------------------------------------------------- PairPlot

  /** The rectangle of cell (row, col): columns left to right, row 0 at the top. */
  function TileRect(gridSize: nat, row: nat, col: nat): Rect
    requires row < gridSize
  {
    var xStart := col * TileSize;
    var yStart := (gridSize - row - 1) * TileSize;
    Rect(xStart, yStart, xStart + TileSize, yStart + TileSize)
  }

  /** Every off-diagonal scatter finds a y value for each of its x values. */
  predicate Pairable(cols: seq<seq<Float>>)
  {
    forall row, col :: 0 <= row < |cols| && 0 <= col < |cols| && row != col ==> |cols[col]| <= |cols[row]|
  }

  /** The panel PairPlot draws in cell (row, col). */
  function Cell(cols: seq<seq<Float>>, labels: seq<string>, row: nat, col: nat): Panel
    requires Pairable(cols) && |cols| <= |labels| && row < |cols| && col < |cols|
  {
    Panel(TileRect(|labels|, row, col),
          if row == col then HistogramPlot(cols[col], labels[col])
          else ScatterPlot(cols[col], cols[row], labels[col], labels[row]))
  }

  function PairPlotPath(labels: seq<string>): string
  {
    "./plot/data_" + GoStrings.Join(labels, "_") + ".png"
  }

  /** Go's make followed by copy. */
  method CopyOf(a: array<Float>) returns (b: array<Float>)
    ensures fresh(b) && b[..] == a[..]
  {
    b := new Float[a.Length](_ => Zero);
    forall i | 0 <= i < a.Length {
      b[i] := a[i];
    }
  }

  /** Every off-diagonal cell has a non-empty x series, which is all PlotScatter needs. */
  predicate ScatterCellsNonEmpty(data: seq<array<Float>>)
  {
    forall col :: 0 <= col < |data| ==> |data| < 2 || data[col].Length > 0
  }

  /** Columns that fit each other pairwise all have the same length, so with two or more of them
      one non-empty column makes all of them non-empty. */
  lemma NonEmptyColumns(data: seq<array<Float>>)
    requires forall row, col :: 0 <= row < |data| && 0 <= col < |data| && row != col ==> data[col].Length <= data[row].Length
    requires |data| >= 2 && data[1].Length > 0
    ensures ScatterCellsNonEmpty(data)
  {
    forall c | 0 <= c < |data| ensures data[c].Length > 0 {
      if c != 1 {
        assert data[1].Length <= data[c].Length;
      }
    }
  }

  /** One row of PairPlot's grid: the histogram on the diagonal, a scatter against the row's
      column elsewhere, the first scatter of an empty column ending the drawing. */
  method PairPlotRow(data: seq<array<Float>>, labels: seq<string>, row: nat) returns (r: Result<seq<Panel>, Error>)
    requires |data| <= |labels| && row < |data|
    requires forall row, col :: 0 <= row < |data| && 0 <= col < |data| && row != col ==> data[col].Length <= data[row].Length
    ensures r.Success? <==> forall c :: 0 <= c < |data| && c != row ==> data[c].Length > 0
    ensures r.Failure? ==> r.error == ScatterRejected
    ensures r.Success? ==> |r.value| == |data|
    ensures r.Success? ==> forall c :: 0 <= c < |data| ==> r.value[c] == Cell(Columns(data), labels, row, c)
  {
    ghost var cols := Columns(data);
    var gridSize := |labels|;
    var yCol := data[row];
    var panels: seq<Panel> := [];
    for col := 0 to |data|
      invariant |panels| == col
      invariant forall c :: 0 <= c < col ==> panels[c] == Cell(cols, labels, row, c)
      invariant forall c :: 0 <= c < col && c != row ==> data[c].Length > 0
    {
      var xCol := data[col];
      var plot: Plot;
      if row == col {
        var copied := CopyOf(xCol);
        plot := PlotHistogram(copied, labels[col]);
      } else {
        var xData := CopyOf(xCol);
        var yData := CopyOf(yCol);
        var scatter := PlotScatter(xData, yData, labels[col], labels[row]);
        if scatter.Failure? {
          assert xData[..] == xCol[..] && xCol.Length == 0;
          return Failure(scatter.error);
        }
        plot := scatter.value;
      }
      var xStart := col * TileSize;
      var yStart := (gridSize - row - 1) * TileSize;
      panels := panels + [Panel(Rect(xStart, yStart, xStart + TileSize, yStart + TileSize), plot)];
    }
    r := Success(panels);
  }

  /** PairPlot: a histogram or a scatter in each of the len(data)² cells, drawn from copies of
      the columns; with no modifies clause the caller's columns are left as they were. The
      first scatter of an empty column panics, which ends the drawing. */
  method PairPlot(data: seq<array<Float>>, labels: seq<string>) returns (r: Result<Drawn, Error>)
    requires |data| <= |labels|
    requires forall row, col :: 0 <= row < |data| && 0 <= col < |data| && row != col ==> data[col].Length <= data[row].Length
    ensures r.Success? <==> ScatterCellsNonEmpty(data)
    ensures r.Failure? ==> r.error == ScatterRejected
    ensures Pairable(Columns(data))
    ensures r.Success? ==> var canvas := r.value.canvas;
      && canvas.width == TileSize * |labels| && canvas.height == TileSize * |labels|
      && |canvas.cells| == |data|
      && (forall row :: 0 <= row < |data| ==> |canvas.cells[row]| == |data|)
      && (forall row, col :: 0 <= row < |data| && 0 <= col < |data| ==>
            canvas.cells[row][col] == Cell(Columns(data), labels, row, col))
    ensures r.Success? ==> r.value.path == PairPlotPath(labels)
  {
    var gridSize := |labels|;
    var imgWidth := TileSize * gridSize;
    var imgHeight := TileSize * gridSize;
    ghost var cols := Columns(data);
    assert Pairable(cols);
    var cells: seq<seq<Panel>> := [];
    for row := 0 to |data|
      invariant |cells| == row
      invariant forall r :: 0 <= r < row ==> |cells[r]| == |data|
      invariant forall r, c :: 0 <= r < row && 0 <= c < |data| ==> cells[r][c] == Cell(cols, labels, r, c)
      invariant row > 0 && |data| >= 2 ==> data[1].Length > 0
    {
      var panels := PairPlotRow(data, labels, row);
      if panels.Failure? {
        var c :| 0 <= c < |data| && c != row && data[c].Length == 0;
        assert !ScatterCellsNonEmpty(data) by {
          assert |data| >= 2;
        }
        return Failure(panels.error);
      }
      cells := cells + [panels.value];
    }
    if |data| >= 2 {
      NonEmptyColumns(data);
    }
    var canvas := Canvas(imgWidth, imgHeight, cells);
    var path := "./plot/data_" + GoStrings.Join(labels, "_") + ".png";
    r := Success(Drawn(canvas, path));
  }

  /** Diagonal cells hold the histogram of their column; the others a scatter with the column's
      series on x and the row's series on y, labelled the same way. */
  lemma CellContents(cols: seq<seq<Float>>, labels: seq<string>, row: nat, col: nat)
    requires Pairable(cols) && |cols| <= |labels| && row < |cols| && col < |cols|
    ensures var p := Cell(cols, labels, row, col).plot;
      && |p.items| == 1
      && (p.items[0].Histogram? <==> row == col)
      && (row == col ==> p.title == "Distribution of " + labels[col]
                         && p.items[0] == Histogram(ZeroNaNs(cols[col]), HistogramBins))
      && (row != col ==> p.xLabel == labels[col] && p.yLabel == labels[row]
                         && p.items[0] == Scatter(ScatterPoints(cols[col], cols[row])))
  {
  }

  /** Every tile is a TileSize square inside the TileSize * gridSize canvas. */
  lemma TileInsideCanvas(gridSize: nat, row: nat, col: nat)
    requires row < gridSize && col < gridSize
    ensures var t := TileRect(gridSize, row, col);
      && 0 <= t.minX && t.maxX <= TileSize * gridSize
      && 0 <= t.minY && t.maxY <= TileSize * gridSize
      && t.maxX - t.minX == TileSize && t.maxY - t.minY == TileSize
  {
  }

  /** Two different cells never overlap. */
  lemma TilesDisjoint(gridSize: nat, row1: nat, col1: nat, row2: nat, col2: nat)
    requires row1 < gridSize && row2 < gridSize
    requires row1 != row2 || col1 != col2
    ensures var a, b := TileRect(gridSize, row1, col1), TileRect(gridSize, row2, col2);
      a.maxX <= b.minX || b.maxX <= a.minX || a.maxY <= b.minY || b.maxY <= a.minY
  {
  }

  /** The row axis is inverted: row 0 has the largest y offset, the last row sits at 0. */
  lemma RowZeroOnTop(gridSize: nat, row: nat, col: nat)
    requires row < gridSize
    ensures TileRect(gridSize, 0, col).minY == TileSize * (gridSize - 1)
    ensures TileRect(gridSize, gridSize - 1, col).minY == 0
    ensures 0 < row ==> TileRect(gridSize, row, col).minY < TileRect(gridSize, 0, col).minY
  {
  }

  /** Different label lists never share an output file, as long as no label contains '_'. */
  lemma PairPlotPathInjective(a: seq<string>, b: seq<string>)
    requires |a| > 0 && |b| > 0
    requires forall k :: 0 <= k < |a| ==> '_' !in a[k]
    requires forall k :: 0 <= k < |b| ==> '_' !in b[k]
    requires PairPlotPath(a) == PairPlotPath(b)
    ensures a == b
  {
    var prefix, suffix := "./plot/data_", ".png";
    var ja, jb := GoStrings.Join(a, "_"), GoStrings.Join(b, "_");
    assert |ja| == |jb|;
    assert ja == PairPlotPath(a)[|prefix|..|prefix| + |ja|];
    assert jb == PairPlotPath(b)[|prefix|..|prefix| + |jb|];
    GoStrings.JoinInjective(a, b, '_');
  }

  /** Drawing the same grid twice gives the same canvas and file name: the first call does not
      disturb the columns the second one reads. */
  method PairPlotTwice(data: seq<array<Float>>, labels: seq<string>)
    returns (first: Result<Drawn, Error>, second: Result<Drawn, Error>)
    requires |data| <= |labels|
    requires forall row, col :: 0 <= row < |data| && 0 <= col < |data| && row != col ==> data[col].Length <= data[row].Length
    ensures first == second
  {
    ghost var cols := Columns(data);
    first := PairPlot(data, labels);
    second := PairPlot(data, labels);
    if first.Success? {
      var a, b := first.value.canvas, second.value.canvas;
      forall row | 0 <= row < |data| ensures a.cells[row] == b.cells[row] {
        assert forall col :: 0 <= col < |data| ==> a.cells[row][col] == Cell(cols, labels, row, col) == b.cells[row][col];
      }
      assert a.cells == b.cells;
      assert first.value == Drawn(a, PairPlotPath(labels)) == second.value;
    }
  }

  // ---------------------------------------------------------------- PlotModel

  /** The data points of PlotModel, taken as they are. */
  function DataPoints(xs: seq<Float>, ys: seq<Float>): (pts: seq<Point>)
    requires |xs| <= |ys|
    ensures |pts| == |xs|
  {
    seq(|xs|, i requires 0 <= i < |xs| => Point(xs[i], ys[i]))
  }

  /** The line of PlotModel: weights[0] * x + bias at each data x. */
  function FittedLine(xs: seq<Float>, weights: seq<Float>, bias: Float): (pts: seq<Point>)
    requires |xs| > 0 ==> |weights| > 0
    ensures |pts| == |xs|
  {
    seq(|xs|, i requires 0 <= i < |xs| => Point(xs[i], Add(Mul(weights[0], xs[i]), bias)))
  }

  function ModelPlot(xs: seq<Float>, ys: seq<Float>, weights: seq<Float>, bias: Float, feature: string, labelName: string): Plot
    requires |xs| == |ys| && (|xs| > 0 ==> |weights| > 0)
  {
    Plot("Model Plot", feature, labelName, [Scatter(DataPoints(xs, ys)), Line(FittedLine(xs, weights, bias), Palette(1))], [])
  }

  /** PlotModel: fails on a length mismatch before anything else, then on empty data or a NaN
      among the data points, then on a NaN on the line; otherwise saves the scatter and the line. */
  method PlotModel(xData: seq<Float>, yData: seq<Float>, weights: seq<Float>, bias: Float, feature: string, labelName: string)
    returns (r: Result<Saved, Error>)
    requires |xData| == |yData| && |xData| > 0 ==> |weights| > 0
    ensures |xData| != |yData| ==> r == Failure(LengthMismatch)
    ensures |xData| == |yData| ==>
      r == if !Plottable(DataPoints(xData, yData)) then Failure(ScatterRejected)
           else if !Plottable(FittedLine(xData, weights, bias)) then Failure(LineRejected)
           else Success(Saved(ModelPlot(xData, yData, weights, bias, feature, labelName), ModelPlotPath))
  {
    if |xData| != |yData| {
      return Failure(LengthMismatch);
    }
    var linePoints := new Point[|xData|](_ => Point(Zero, Zero));
    var points := new Point[|xData|](_ => Point(Zero, Zero));
    for i := 0 to |xData|
      invariant forall k :: 0 <= k < i ==> points[k] == Point(xData[k], yData[k])
      invariant forall k :: 0 <= k < i ==> linePoints[k] == Point(xData[k], Add(Mul(weights[0], xData[k]), bias))
    {
      points[i] := Point(xData[i], yData[i]);
      linePoints[i] := Point(xData[i], Add(Mul(weights[0], xData[i]), bias));
    }
    assert points[..] == DataPoints(xData, yData);
    assert linePoints[..] == FittedLine(xData, weights, bias);
    if !Plottable(points[..]) {
      return Failure(ScatterRejected);
    }
    if !Plottable(linePoints[..]) {
      return Failure(LineRejected);
    }
    var plot := Plot("Model Plot", feature, labelName, [Scatter(points[..]), Line(linePoints[..], Palette(1))], []);
    r := Success(Saved(plot, ModelPlotPath));
  }

  /** Each line point lies on y = w * x + b, sampled at the data x values themselves. */
  lemma FittedLineOnModel(xs: seq<Float>, weights: seq<Float>, bias: Float, i: nat)
    requires |xs| > 0 && |weights| > 0 && i < |xs|
    requires xs[i].Num? && weights[0].Num? && bias.Num?
    ensures FittedLine(xs, weights, bias)[i].x == xs[i]
    ensures FittedLine(xs, weights, bias)[i] == Point(xs[i], Num(weights[0].val * xs[i].val + bias.val))
  {
    var w, x := weights[0], xs[i];
    assert FittedLine(xs, weights, bias)[i] == Point(x, Add(Mul(w, x), bias));
    assert Mul(w, x) == Num(w.val * x.val);
    assert Add(Mul(w, x), bias) == Num(w.val * x.val + bias.val);
  }

  /** On data that lie exactly on the model, the line goes through every data point. */
  lemma {:induction false} FittedLineThroughExactData(xs: seq<Float>, ys: seq<Float>, weights: seq<Float>, bias: Float)
    requires |xs| == |ys| && |weights| > 0
    requires forall i :: 0 <= i < |xs| ==> ys[i] == Add(Mul(weights[0], xs[i]), bias)
    ensures FittedLine(xs, weights, bias) == DataPoints(xs, ys)
  {
    forall i | 0 <= i < |xs| ensures FittedLine(xs, weights, bias)[i] == DataPoints(xs, ys)[i] {
    }
  }

  /** xs = [0, 1, 2], ys = [1, 3, 5], weight 2 and bias 1: the line passes through (0,1), (1,3), (2,5). */
  lemma ModelFitExample()
    ensures FittedLine([Num(0.0), Num(1.0), Num(2.0)], [Num(2.0)], Num(1.0))
         == [Point(Num(0.0), Num(1.0)), Point(Num(1.0), Num(3.0)), Point(Num(2.0), Num(5.0))]
  {
    var xs, ys := [Num(0.0), Num(1.0), Num(2.0)], [Num(1.0), Num(3.0), Num(5.0)];
    FittedLineThroughExactData(xs, ys, [Num(2.0)], Num(1.0));
  }

  /** PlotModel fails only on empty data or a NaN: with non-empty NaN-free data and parameters
      both point sets are accepted. */
  lemma ModelPlottableOnCleanData(xs: seq<Float>, ys: seq<Float>, weights: seq<Float>, bias: Float)
    requires |xs| == |ys| && |xs| > 0 && |weights| > 0
    requires NaNFree(xs) && NaNFree(ys) && weights[0].Num? && bias.Num?
    ensures Plottable(DataPoints(xs, ys)) && Plottable(FittedLine(xs, weights, bias))
  {
  }

  /** Unlike PlotScatter, PlotModel substitutes nothing: one NaN among the data points is fatal. */
  lemma ModelRejectsNaN(xs: seq<Float>, ys: seq<Float>, i: nat)
    requires |xs| == |ys| && i < |xs| && (xs[i].NaN? || ys[i].NaN?)
    ensures !Plottable(DataPoints(xs, ys))
  {
    assert DataPoints(xs, ys)[i] == Point(xs[i], ys[i]);
  }

  // ---------------------------------------------------------------- PlotMetrics

  /** The epoch axis: 1, 2, ..., n. */
  function Epochs(n: nat): (e: seq<Float>)
    ensures |e| == n
  {
    seq(n, i requires 0 <= i < n => FromNat(i + 1))
  }

  /** colorMap[i]: red, green, blue for the first three series, Go's nil colour after. */
  function MetricColor(i: nat): Color
  {
    if i == 0 then RGBA(255, 0, 0, 255)
    else if i == 1 then RGBA(0, 255, 0, 255)
    else if i == 2 then RGBA(0, 0, 255, 255)
    else NoColor
  }

  /** The line of one series: the first n values against epochs 1..n; later values are not drawn. */
  function EpochPoints(values: seq<Float>, n: nat): (pts: seq<Point>)
    requires n <= |values|
    ensures |pts| == n
  {
    DataPoints(Epochs(n), values[..n])
  }

  lemma EpochPointAt(values: seq<Float>, n: nat, i: nat)
    requires n <= |values| && i < n
    ensures EpochPoints(values, n)[i] == Point(Num((i + 1) as real), values[i])
  {
  }

  /** A series' line is accepted exactly when there is at least one epoch and its first n values
      hold no NaN. */
  lemma EpochPointsPlottable(values: seq<Float>, n: nat)
    requires n <= |values|
    ensures Plottable(EpochPoints(values, n)) <==> n > 0 && NaNFree(values[..n])
  {
    var pts := EpochPoints(values, n);
    if Plottable(pts) {
      forall i | 0 <= i < n ensures values[..n][i].Num? {
        assert pts[i].y == values[i];
      }
    }
  }

  /** The first three series get three different colours, the rest none. */
  lemma MetricColors(i: nat, j: nat)
    ensures i < 3 && j < 3 && i != j ==> MetricColor(i) != MetricColor(j)
    ensures i < 3 ==> MetricColor(i).RGBA?
    ensures 3 <= i ==> MetricColor(i) == NoColor
  {
  }

  /** A series whose line gonum accepts: at least one epoch, and no NaN among its first n values. */
  predicate SeriesAccepted(values: seq<Float>, n: nat)
  {
    0 < n <= |values| && NaNFree(values[..n])
  }

  /** The series ready to draw: an order naming every key of the map once, and each series at
      least n values long (a shorter one would be indexed past its end). */
  predicate Drawable(metricsMap: map<string, seq<Float>>, order: seq<string>, n: nat)
  {
    && Distinct(order)
    && (forall k :: 0 <= k < |order| ==> order[k] in metricsMap)
    && (forall name :: name in metricsMap ==> name in order)
    && (forall name :: name in metricsMap ==> n <= |metricsMap[name]|)
  }

  /** The lines for the first names of the order, coloured by position. */
  function MetricLines(metricsMap: map<string, seq<Float>>, names: seq<string>, n: nat): (lines: seq<Item>)
    requires forall k :: 0 <= k < |names| ==> names[k] in metricsMap && n <= |metricsMap[names[k]]|
    ensures |lines| == |names|
  {
    seq(|names|, k requires 0 <= k < |names| => Line(EpochPoints(metricsMap[names[k]], n), MetricColor(k)))
  }

  function MetricsPlot(metricsMap: map<string, seq<Float>>, order: seq<string>, n: nat): Plot
    requires Drawable(metricsMap, order, n)
  {
    Plot(MetricsTitle, "Epochs", "Loss", MetricLines(metricsMap, order, n), order)
  }

  /** The addLine closure: one point per x value, added with its legend entry, or a failure. */
  method AddLine(p: Plot, name: string, xData: array<Float>, yData: seq<Float>, lineColor: Color)
    returns (r: Result<Plot, Error>)
    requires xData.Length <= |yData|
    ensures var pts := DataPoints(xData[..], yData);
      r == if Plottable(pts) then Success(p.(items := p.items + [Line(pts, lineColor)], legend := p.legend + [name]))
           else Failure(LineRejected)
  {
    var points := new Point[xData.Length](_ => Point(Zero, Zero));
    for i := 0 to points.Length
      invariant forall k :: 0 <= k < i ==> points[k] == Point(xData[k], yData[k])
    {
      points[i] := Point(xData[i], yData[i]);
    }
    assert points[..] == DataPoints(xData[..], yData);
    if !Plottable(points[..]) {
      return Failure(LineRejected);
    }
    r := Success(p.(items := p.items + [Line(points[..], lineColor)], legend := p.legend + [name]));
  }

  /** PlotMetrics, visiting the series in `order`, the iteration order Go happened to choose. */
  method PlotMetrics(numEpochs: nat, metricsMap: map<string, seq<Float>>, order: seq<string>)
    returns (r: Result<Saved, Error>)
    requires Drawable(metricsMap, order, numEpochs)
    ensures r.Success? <==> forall k :: 0 <= k < |order| ==> SeriesAccepted(metricsMap[order[k]], numEpochs)
    ensures r.Failure? ==> r.error == LineRejected
    ensures r.Success? ==> r.value == Saved(MetricsPlot(metricsMap, order, numEpochs), MetricsPlotPath)
  {
    var epochs := new Float[numEpochs](_ => Zero);
    for i := 0 to numEpochs
      invariant forall k :: 0 <= k < i ==> epochs[k] == FromNat(k + 1)
    {
      epochs[i] := FromNat(i + 1);
    }
    assert epochs[..] == Epochs(numEpochs);
    var pl := Plot(MetricsTitle, "Epochs", "Loss", [], []);
    var i := 0;
    while i < |order|
      invariant 0 <= i <= |order|
      invariant epochs[..] == Epochs(numEpochs)
      invariant pl == Plot(MetricsTitle, "Epochs", "Loss", MetricLines(metricsMap, order[..i], numEpochs), order[..i])
      invariant forall k :: 0 <= k < i ==> SeriesAccepted(metricsMap[order[k]], numEpochs)
    {
      var name := order[i];
      var values := metricsMap[name];
      EpochPointsPlottable(values, numEpochs);
      assert DataPoints(epochs[..], values) == EpochPoints(values, numEpochs) by {
        forall k | 0 <= k < numEpochs ensures DataPoints(epochs[..], values)[k] == EpochPoints(values, numEpochs)[k] {
        }
      }
      var added := AddLine(pl, name, epochs, values, MetricColor(i));
      if added.Failure? {
        assert !SeriesAccepted(metricsMap[order[i]], numEpochs);
        return Failure(added.error);
      }
      pl := added.value;
      assert order[..i + 1] == order[..i] + [name];
      assert MetricLines(metricsMap, order[..i + 1], numEpochs)
          == MetricLines(metricsMap, order[..i], numEpochs) + [Line(EpochPoints(values, numEpochs), MetricColor(i))];
      i := i + 1;
    }
    assert order[..i] == order;
    r := Success(Saved(pl, MetricsPlotPath));
  }
}
