# go-ml core: correlation, pair plots, model and metrics plots

This project models the bookkeeping around the numeric libraries in a Go tutorial that fits a
one-feature linear regression to Chicago taxi data:

- `dataset/dataset.go`:
  - the correlation matrix of a data frame's columns;
  - the column-major copy of the frame;
  - the string rows handed to the table writer.
- `plotter/plotter.go`:
  - NaN handling and the point arrays of the scatter and histogram plots;
  - the pair-plot grid, with its panel kinds, series, labels, tile rectangles and file name;
  - the fitted-line points of the model plot;
  - the epoch axis, lines and colours of the metrics plot.
- `linearregression/onefeature/train.go`:
  - the per-step metrics collector (`currentEpoch` and the package-level `metricsMap`);
  - the extraction of the TRIP_MILES and FARE columns;
  - the driver's correlation and pair-plot steps.

A float64 is `Floats.Float = Num(real) | NaN`, so every NaN test is exact. Library code the
core calls is either a parameter of the model or a plain value:

- `stat.Correlation` is the parameter `corr`.
- `fmt.Sprintf("%0.2f", ·)` is the parameter `format`.
- Map iteration order in `PlotMetrics` is the parameter `order`.
- A gonum plot is a `Plotter.Plot` value: its title, axis labels, the items added to it and its
  legend.
- gonum's `NewScatter` and `NewLine` refuse an empty point set and any point with a NaN
  coordinate. This is the predicate `Plotter.Plottable`.

Go slices that the code writes in place, or whose aliasing matters, are `array<Float>`:

- the argument of `PlotHistogram`;
- the columns given to `PairPlot`;
- the columns `ToFloatMatrix` returns.

`PairPlot` has no `modifies` clause, so the verifier checks that it never writes the caller's
columns. It copies each column before the NaN rewrite in `PlotHistogram`. `PairPlotTwice` is a
client that shows what this buys: two calls on the same data give the same canvas.

The collector is two classes:

- `MetricsStore` is the package-level `metricsMap`.
- `EpochMetricsCollector` is the state captured by the closure. Its ghost field `steps` records
  every `LoopStep` it has seen. `Valid()` says that `currentEpoch` is the number of firing steps
  among them.

Behaviour of the code that the model keeps:

- `GetCorrelationMatrix` writes only the diagonal and the strict upper triangle: the inner loop
  starts at `j := i` (dataset/dataset.go:65). The lower triangle keeps the zero value of `make`
  (dataset/dataset.go:64). `Dataset.CorrelationSymmetricIff` shows that the matrix is symmetric
  exactly when every computed correlation is 0.0.
- `corr` gets the two full columns, NaNs included (dataset/dataset.go:70-72).
- Cell (row, col) of the pair plot starts at y = (gridSize-row-1)*tile (plotter/plotter.go:111).
  Row 0 gets the largest y offset. vg's y axis grows upwards, so row 0 is the top row.
- The grid dimension and the canvas size come from `len(labels)` (plotter/plotter.go:86-89). The
  loops run over `len(data)` (plotter/plotter.go:93-94).
- `addLine` reads `yData[i]` for every epoch (plotter/plotter.go:227-229). A series shorter than
  the epoch count is indexed past its end, so the model makes `n <= |values|` a precondition
  (`Plotter.Drawable`). A longer series has its extra values left out (`Plotter.EpochPoints`).
- Series colours come from `colorMap[i]`, where `i` counts the series in the map's iteration
  order (plotter/plotter.go:243-252).
- `NewScatter` and `NewLine` return an error for an empty point set. So `PlotScatter` fails on an
  empty x column (plotter/plotter.go:53-56). `PairPlot` fails when it has at least two columns and
  they are empty. `PlotModel` fails on empty data (plotter/plotter.go:188-191). `PlotMetrics` fails
  when `numEpochs` is 0 and the map holds a series (plotter/plotter.go:232-235).

## Model

| member | source | states |
|---|---|---|
| `Floats.ZeroNaNs` | plotter/plotter.go:69-73 | the histogram's NaN rewrite keeps the length, leaves no NaN, keeps every non-NaN entry and puts 0 where a NaN was |
| `Floats.ZeroNaNsIdempotent` | plotter/plotter.go:69-73 | rewriting NaNs twice gives the same series as rewriting once |
| `Floats.ZeroNaNsKeepsNaNFree` | plotter/plotter.go:69-73 | a series without NaN is left exactly as it was |
| `GoStrings.SplitJoin` | plotter/plotter.go:128 | strings.Join with a one-character separator puts separators only between the labels: splitting the result gives the labels back |
| `GoStrings.JoinInjective` | plotter/plotter.go:128 | two non-empty label lists without the separator join to different strings |
| `Dataset.IndexOf` | dataset/dataset.go:70-71 | a name lookup finds its first position, or reports the name missing exactly when it is absent |
| `Dataset.ColByOwnName` | dataset/dataset.go:61-71 | with unique names, df.Col(columns[i]) is column i with every row, NaNs included |
| `Dataset.SubsetCol` | linearregression/onefeature/train.go:110-115 | row i's value in a named column is that column's entry i |
| `Dataset.GetCorrelationMatrix` | dataset/dataset.go:60-77 | the result has len(columns) rows of len(columns) entries; row i is the zero value left of the diagonal, 1.0 on it and corr(column i, column j) right of it |
| `Dataset.CorrelationDiagonal` | dataset/dataset.go:66-68 | every diagonal entry is exactly 1.0 for every corr, so corr is never consulted there |
| `Dataset.CorrelationUpper` | dataset/dataset.go:70-73 | for i < j the entry is corr of the two full columns looked up by name |
| `Dataset.CorrelationLower` | dataset/dataset.go:62-65 | for j < i the entry is never written and stays 0.0 |
| `Dataset.CorrelationSymmetricIff` | dataset/dataset.go:63-75 | the matrix is symmetric if and only if every computed correlation is 0.0, so nothing mirrors the upper triangle |
| `Dataset.TransposeTwice` | dataset/dataset.go:83-89 | reading the column-major copy back row by row gives the original table |
| `Dataset.ToFloatMatrix` | dataset/dataset.go:79-92 | Ncol columns of Nrow entries, entry (i, j) being Elem(j, i): the transpose of the row-major table; every column is a freshly allocated slice and no two columns are the same slice |
| `Dataset.PrintRows` | dataset/dataset.go:94-107 | the header is "" followed by the headers; one row per matrix row, in order, of length len(row)+1; a non-empty row starts with headers[index] and has format(row[k]) at k+1; an empty row is [""] |
| `Plotter.ScatterPoints` | plotter/plotter.go:34-46 | one point per x value, and no point has a NaN coordinate; NewScatter accepts the points exactly when there is at least one |
| `Plotter.ScatterPointAt` | plotter/plotter.go:36-45 | point i's X is 0 if xData[i] is NaN and xData[i] otherwise; Y the same from yData[i] |
| `Plotter.PlotScatter` | plotter/plotter.go:33-62 | needs len(yData) >= len(xData); succeeds if and only if xData is non-empty, and otherwise fails as NewScatter's error does; on success the title is yLabel + " vs " + xLabel, the axes xLabel and yLabel, and the plot one scatter of len(xData) NaN-free points |
| `Plotter.PlotHistogram` | plotter/plotter.go:64-83 | overwrites every NaN of its argument with 0 in place and nothing else; the plot is titled "Distribution of " + label and bins the rewritten values into 16 buckets |
| `Plotter.CopyOf` | plotter/plotter.go:98-105 | a fresh slice with the same contents |
| `Plotter.PairPlotRow` | plotter/plotter.go:94-120 | one row of the grid: it fails if and only if a column other than the row's own is empty; otherwise it holds len(data) cells, cell col being Cell of the caller's columns |
| `Plotter.PairPlot` | plotter/plotter.go:85-139 | fails if and only if there are at least two columns and one of them is empty; otherwise a TileSize*len(labels) square canvas with len(data)^2 cells, cell (row, col) being Cell of the caller's unchanged columns; the file is "./plot/data_" + Join(labels, "_") + ".png" |
| `Plotter.CellContents` | plotter/plotter.go:97-107 | a cell holds a histogram if and only if row == col; the diagonal histogram is of data[col] labelled labels[col]; the others scatter data[col] on x against data[row] on y, labelled labels[col] and labels[row] |
| `Plotter.TileInsideCanvas` | plotter/plotter.go:86-89 | each cell's rectangle is a TileSize square inside the canvas |
| `Plotter.TilesDisjoint` | plotter/plotter.go:110-118 | rectangles of different cells do not overlap |
| `Plotter.RowZeroOnTop` | plotter/plotter.go:111 | row 0 gets the largest y offset, (gridSize-1)*tile; the last row gets 0 |
| `Plotter.PairPlotPathInjective` | plotter/plotter.go:128 | different non-empty label lists without '_' never share an output file |
| `Plotter.PairPlotTwice` | plotter/plotter.go:85-139 | two pair plots of the same data give the same result: both fail alike, or both give the same canvas and file name |
| `Plotter.PlotModel` | plotter/plotter.go:166-211 | a length mismatch fails before anything else; then empty data or a NaN data point fails NewScatter and a NaN line point fails NewLine; otherwise the plot holds the data points unchanged and the fitted line, saved to ./plot/model_plot.png |
| `Plotter.FittedLineOnModel` | plotter/plotter.go:179-180 | line point i is at x = xData[i] with y = weights[0]*xData[i] + bias |
| `Plotter.FittedLineThroughExactData` | plotter/plotter.go:172-181 | on data lying on the model the line passes through every data point |
| `Plotter.ModelFitExample` | plotter/plotter.go:179-180 | with xs = [0,1,2], weight 2 and bias 1 the line passes through (0,1), (1,3), (2,5) |
| `Plotter.ModelPlottableOnCleanData` | plotter/plotter.go:188-197 | with non-empty NaN-free data, weight and bias both point sets are accepted |
| `Plotter.ModelRejectsNaN` | plotter/plotter.go:175-177 | PlotModel substitutes nothing, so one NaN coordinate makes its scatter unacceptable |
| `Plotter.Epochs` | plotter/plotter.go:214-217 | the epoch axis has numEpochs entries |
| `Plotter.EpochPointAt` | plotter/plotter.go:226-230 | point i of a series' line is (i+1, values[i]) |
| `Plotter.EpochPointsPlottable` | plotter/plotter.go:226-234 | a series' line is accepted if and only if numEpochs > 0 and its first numEpochs values hold no NaN |
| `Plotter.MetricColors` | plotter/plotter.go:243-252 | the first three series get three different RGBA colours; from the fourth on the colour is nil |
| `Plotter.AddLine` | plotter/plotter.go:225-241 | one point per x value from (xData[i], yData[i]); on success the line and its legend name are added at the end, otherwise it fails |
| `Plotter.PlotMetrics` | plotter/plotter.go:213-262 | succeeds if and only if every series has numEpochs > 0 and no NaN among its first numEpochs values; then line k, in iteration order, is (i+1, values[i]) for i < numEpochs in colour k, with legend name k |
| `Train.DataframeToSingleTensors` | linearregression/onefeature/train.go:103-123 | two numRows x 1 tensors: inputs[i] is row i's TRIP_MILES and labels[i] is row i's FARE |
| `Train.ShowCorrelations` | linearregression/onefeature/train.go:52-53 | the header is "" followed by the names the driver passes; the printed table has a row per frame column, row i headed by the i-th passed name, with format(1.0) on the diagonal, format(0.0) below it and the formatted correlation above it |
| `Train.PlotPairs` | linearregression/onefeature/train.go:57 | ToFloatMatrix's columns meet PairPlot's length requirement; the pair plot fails if and only if the frame has at least two columns and no rows, and otherwise shows the frame's transposed columns |
| `Train.RecordSeries` | linearregression/onefeature/train.go:136-138 | after one step's appends, a name's series keeps its earlier values in front and grows by one per report of that name; it exists afterwards if and only if it existed or was reported |
| `Train.RecordDistinct` | linearregression/onefeature/train.go:136-138 | with distinct names, each reported series is its old value with the reported value appended |
| `Train.RecordUntouched` | linearregression/onefeature/train.go:137 | a name not reported in the step keeps its series, or stays absent |
| `Train.RecordNewSeries` | linearregression/onefeature/train.go:137 | appending to an absent name creates a series of length 1 |
| `Train.MetricsStore.constructor` | linearregression/onefeature/train.go:125 | the metrics map starts empty |
| `Train.EpochMetricsCollector.constructor` | linearregression/onefeature/train.go:127-128 | currentEpoch starts at 0 |
| `Train.EpochMetricsCollector.OnStep` | linearregression/onefeature/train.go:130-141 | fires only when LoopStep > 0 and LoopStep % batchSize == 0; a firing step adds exactly 1 to currentEpoch and appends the step's metrics in order; any other step changes nothing; currentEpoch always counts the firing steps seen; the result is always nil |

## Left out

- Fetching and parsing the CSV (`GetDataFromURL`), `DescribeData` and `ExtractColumns` are out. They are I/O and thin wrappers over gota.
- gota's conversion of a cell with `Float()` is out. Cells are already `Float`, and a non-numeric cell is NaN.
- `stat.Correlation`'s arithmetic is out. It is the parameter `corr`.
- tablewriter rendering and stdout are out. `PrintRows` returns the header and rows given to the writer.
- The `%0.2f` formatting is out. It is the parameter `format`.
- Histogram binning, gonum plot construction, glyph sizes, line widths, fill colours, rasterisation and PNG encoding are out. They are graphics.
- Line colours are kept; they are on the `Line` item.
- `os.Mkdir`, `os.Create`, `Save`, the PNG write and their errors are out. They are file I/O. Only the output paths are modelled.
- The printed messages (`fmt.Printf`, `log.Println`) are out.
- IEEE-754 rounding and infinities are out. `Float` has exact reals and NaN, so gonum's refusal of infinite points is not modelled.
- `PlotModel`'s fitted line is computed in exact real arithmetic, with NaN propagated.
- Go runtime panics are preconditions:
  - an index out of range: `headers[index]` in `Print`, `weights[0]` in `PlotModel`, `yData[i]` in `PlotScatter`, `metricValues[i]` in `addLine`, `labels[col]` in `PairPlot`;
  - `trainMetrics[i]` out of range in the collector (linearregression/onefeature/train.go:137). `OnStep` requires `|metrics| <= |names|`;
  - `.Float()[0]` on the empty series that `Col` returns for an unknown name (linearregression/onefeature/train.go:111 and :115). `DataframeToSingleTensors` requires FARE and TRIP_MILES among the frame's names;
  - the division by zero in `LoopStep % batchSize` (linearregression/onefeature/train.go:131). `OnStep` requires `batchSize != 0` whenever `LoopStep > 0`;
  - the `make` of a negative length in `PlotMetrics`. `numEpochs` is a `nat`.
- `log.Fatalf` and `log.Panic` are `Failure` results, not process exits.
- Map iteration order in `PlotMetrics` is the caller-supplied `order`: a list of the map's keys, each once. Go randomises it, so the model does not say which name gets which colour.
- Training with gomlx is out: `modelGraph`, the backend, trainer, optimizer, `RunEpochs`, the progress bar and the command-line flags.
- The rest of `OneFeature` is out. Its correlation and pair-plot steps are `ShowCorrelations` and `PlotPairs`.
- The gomlx tensor is only its flat data and its shape.
- The registration of the closure (`loop.OnStep("EpochMetrics", 100, ...)`) is out. The callback is the method `OnStep`.
- `TrainMetrics()[i].Name()` arrives as `names[i]`. `strconv.ParseFloat(PrettyPrint(metric))` arrives as the value `metrics[i]`, and the panic of `must.M1` is not modelled.
- `EpochMetricsCollector.OnStep`: the source fires on every batchSize-th loop step ("currentEpoch" is a count of those steps). `PlotMetrics` is then called with the epoch flag. The model does not relate the two: that depends on how many steps gomlx runs per epoch, which is not part of this model.
- `PlotData` (plotter/plotter.go:142-164) is out. It is never called. It would save a plain scatter to "./plot/data_<feature>_<label>.png".
- `Plotter.PlotHistogram`: the error branch after `NewHist` (plotter/plotter.go:75-78) is not modelled. The values it bins hold no NaN, but how gonum's `NewHist` treats an empty series is not part of this model, so the model always returns a histogram plot.
