/** linearregression/onefeature/train.go: the per-step metrics collector and the extraction of
    the feature and label columns. */
module Train {
  import opened Basics
  import opened Floats
  import opened Dataset
  import Plotter

  const FareColumn: string := "FARE"

  const TripMilesColumn: string := "TRIP_MILES"

  /** A tensor built by tensors.FromFlatDataAndDimensions: flat data and its shape. */
  datatype Tensor = Tensor(data: seq<Float>, dims: seq<nat>)

  /** dataframeToSingleTensors: TRIP_MILES as the numRows x 1 input, FARE as the numRows x 1 label. */
  method DataframeToSingleTensors(df: DataFrame) returns (inputs: Tensor, labels: Tensor)
    requires Valid(df) && FareColumn in df.names && TripMilesColumn in df.names
    ensures inputs.dims == [Nrow(df), 1] && labels.dims == [Nrow(df), 1]
    ensures inputs.data == Col(df, TripMilesColumn)
    ensures labels.data == Col(df, FareColumn)
  {
    var numRows := Nrow(df);
    var inputData := new Float[numRows](_ => Zero);
    var labelData := new Float[numRows](_ => Zero);
    for i := 0 to numRows
      invariant forall k :: 0 <= k < i ==> labelData[k] == Col(df, FareColumn)[k]
      invariant forall k :: 0 <= k < i ==> inputData[k] == Col(df, TripMilesColumn)[k]
    {
      var row := Subset(df, i);
      SubsetCol(df, i, FareColumn);
      SubsetCol(df, i, TripMilesColumn);
      var labelValue := Col(row, FareColumn)[0];
      labelData[i] := labelValue;
      var featureIdx := 0;
      var value := Col(row, TripMilesColumn)[0];
      inputData[i + featureIdx] := value;
      featureIdx := featureIdx + 1;
    }
    inputs := Tensor(inputData[..], [numRows, 1]);
    labels := Tensor(labelData[..], [numRows, 1]);
  }

  /** The driver's correlation step (GetCorrelationMatrix then Print(columns)): the matrix of a
      frame printed under the names the driver passes, which may differ from the frame's own. */
  method ShowCorrelations(df: DataFrame, columns: seq<string>, corr: (seq<Float>, seq<Float>) -> Float,
                          format: Float -> string)
    returns (tableHeader: seq<string>, table: seq<seq<string>>)
    requires Valid(df) && Ncol(df) <= |columns|
    ensures tableHeader == [""] + columns
    ensures |table| == Ncol(df)
    ensures forall i :: 0 <= i < Ncol(df) ==> |table[i]| == Ncol(df) + 1 && table[i][0] == columns[i]
    ensures forall i :: 0 <= i < Ncol(df) ==> table[i][i + 1] == format(One)
    ensures forall i, j :: 0 < j <= i < Ncol(df) ==> table[i][j] == format(Zero)
    ensures forall i, j :: 0 <= i < j < Ncol(df) ==>
      table[i][j + 1] == format(corr(Col(df, df.names[i]), Col(df, df.names[j])))
  {
    var m := GetCorrelationMatrix(df, corr);
    forall i | 0 <= i < Ncol(df) ensures |m[i]| == Ncol(df) {
      assert IsCorrelationRow(m[i], df, corr, i);
    }
    tableHeader, table := PrintRows(m, columns, format);
    forall i, j | 0 <= i < Ncol(df) && 0 < j <= Ncol(df)
      ensures table[i][j] ==
        format(if j - 1 < i then Zero else if j - 1 == i then One else corr(Col(df, df.names[i]), Col(df, df.names[j - 1])))
    {
      assert IsCorrelationRow(m[i], df, corr, i);
      assert table[i][(j - 1) + 1] == format(m[i][j - 1]);
      ColByOwnName(df, i);
      ColByOwnName(df, j - 1);
    }
  }

  /** The driver's pair-plot step, PairPlot(ToFloatMatrix(df), columns): the columns of a valid
      frame always have the equal lengths PairPlot needs, so only an empty frame with at least
      two columns makes it fail. */
  method PlotPairs(df: DataFrame, columns: seq<string>) returns (r: Result<Plotter.Drawn, Plotter.Error>)
    requires Valid(df) && Ncol(df) <= |columns|
    ensures r.Success? <==> Ncol(df) < 2 || Nrow(df) > 0
    ensures Plotter.Pairable(Transpose(df.rows, Ncol(df)))
    ensures r.Success? ==> var canvas := r.value.canvas;
      && |canvas.cells| == Ncol(df)
      && (forall row :: 0 <= row < Ncol(df) ==> |canvas.cells[row]| == Ncol(df))
      && (forall row, col :: 0 <= row < Ncol(df) && 0 <= col < Ncol(df) ==>
            canvas.cells[row][col] == Plotter.Cell(Transpose(df.rows, Ncol(df)), columns, row, col))
    ensures r.Success? ==> r.value.path == Plotter.PairPlotPath(columns)
  {
    var matrix := ToFloatMatrix(df);
    r := Plotter.PairPlot(matrix, columns);
  }

  // ---------------------------------------------------------------- the metrics map

  /** metricsMap[name], Go's nil slice for a name never seen. */
  function Lookup(m: map<string, seq<Float>>, name: string): seq<Float>
  {
    if name in m then m[name] else []
  }

  /** metricsMap[name] = append(metricsMap[name], v) */
  function Append(m: map<string, seq<Float>>, name: string, v: Float): map<string, seq<Float>>
  {
    m[name := Lookup(m, name) + [v]]
  }

  /** The map after the appends of one firing step, done in the order the metrics come. */
  function Record(m: map<string, seq<Float>>, names: seq<string>, values: seq<Float>): map<string, seq<Float>>
    requires |names| == |values|
  {
    if |values| == 0 then m
    else
      var last := |values| - 1;
      Append(Record(m, names[..last], values[..last]), names[last], values[last])
  }

  /** A name gets one more value for each time it is reported, and keeps what it had in front. */
  lemma {:induction false} RecordSeries(m: map<string, seq<Float>>, names: seq<string>, values: seq<Float>, name: string)
    requires |names| == |values|
    ensures |Lookup(Record(m, names, values), name)| == |Lookup(m, name)| + Count(names, name)
    ensures Lookup(Record(m, names, values), name)[..|Lookup(m, name)|] == Lookup(m, name)
    ensures name in Record(m, names, values) <==> name in m || name in names
  {
    if |values| > 0 {
      var last := |values| - 1;
      var before := Record(m, names[..last], values[..last]);
      RecordSeries(m, names[..last], values[..last], name);
      assert names == names[..last] + [names[last]];
      if names[last] == name {
        assert Lookup(Record(m, names, values), name) == Lookup(before, name) + [values[last]];
      }
    }
  }

  /** With distinct names, each reported series grows by its own value, appended at the end. */
  lemma {:induction false} RecordDistinct(m: map<string, seq<Float>>, names: seq<string>, values: seq<Float>, k: nat)
    requires |names| == |values| && Distinct(names) && k < |names|
    ensures names[k] in Record(m, names, values)
    ensures Record(m, names, values)[names[k]] == Lookup(m, names[k]) + [values[k]]
  {
    var last := |values| - 1;
    var before := Record(m, names[..last], values[..last]);
    assert Distinct(names[..last]) by {
      forall i, j | 0 <= i < j < last ensures names[..last][i] != names[..last][j] { }
    }
    if k == last {
      assert names[k] !in names[..last] by {
        forall i | 0 <= i < last ensures names[..last][i] != names[k] { }
      }
      RecordUntouched(m, names[..last], values[..last], names[k]);
    } else {
      RecordDistinct(m, names[..last], values[..last], k);
      assert names[..last][k] == names[k] && values[..last][k] == values[k];
    }
  }

  /** A name not reported in the step keeps its series, or stays absent. */
  lemma {:induction false} RecordUntouched(m: map<string, seq<Float>>, names: seq<string>, values: seq<Float>, name: string)
    requires |names| == |values| && name !in names
    ensures name in Record(m, names, values) <==> name in m
    ensures Lookup(Record(m, names, values), name) == Lookup(m, name)
  {
    if |values| > 0 {
      var last := |values| - 1;
      assert name !in names[..last];
      RecordUntouched(m, names[..last], values[..last], name);
    }
  }

  /** A first report of a name starts a series of length one. */
  lemma RecordNewSeries(m: map<string, seq<Float>>, names: seq<string>, values: seq<Float>, k: nat)
    requires |names| == |values| && Distinct(names) && k < |names| && names[k] !in m
    ensures names[k] in Record(m, names, values) && Record(m, names, values)[names[k]] == [values[k]]
  {
    RecordDistinct(m, names, values, k);
  }

  // ---------------------------------------------------------------- the collector

  /** The step test. For the positive steps it is applied to, Go's truncating % and Dafny's
      Euclidean % agree on whether the remainder is 0. */
  predicate Fires(loopStep: int, batchSize: int)
  {
    loopStep > 0 && batchSize != 0 && loopStep % batchSize == 0
  }

  /** How many of the steps seen so far passed the test. */
  function FiringCount(steps: seq<int>, batchSize: int): (n: nat)
    ensures n <= |steps|
  {
    if |steps| == 0 then 0
    else FiringCount(steps[..|steps| - 1], batchSize) + (if Fires(steps[|steps| - 1], batchSize) then 1 else 0)
  }

  /** The package-level metricsMap. */
  class MetricsStore {
    var series: map<string, seq<Float>>

    constructor ()
      ensures series == map[]
    {
      series := map[];
    }
  }

  /** The state captured by the OnStep closure of attachEpochMetricsCollector: currentEpoch,
      the shared metricsMap and the batch-size flag; `steps` records every LoopStep seen. */
  class EpochMetricsCollector {
    const store: MetricsStore
    const batchSize: int
    var currentEpoch: nat
    ghost var steps: seq<int>

    /** currentEpoch counts the firing steps among those seen. */
    ghost predicate Valid()
      reads this
    {
      currentEpoch == FiringCount(steps, batchSize)
    }

    constructor (store: MetricsStore, batchSize: int)
      ensures this.store == store && this.batchSize == batchSize
      ensures currentEpoch == 0 && steps == [] && Valid()
    {
      this.store := store;
      this.batchSize := batchSize;
      currentEpoch := 0;
      steps := [];
    }

    /** The closure: on a firing step, count one more epoch and append each reported metric value
        to the series of its name; on any other step, change nothing. It always returns nil. */
    method OnStep(loopStep: int, names: seq<string>, metrics: seq<Float>) returns (err: Option<string>)
      requires Valid()
      requires loopStep > 0 ==> batchSize != 0
      requires |metrics| <= |names|
      modifies this, store
      ensures Valid() && steps == old(steps) + [loopStep]
      ensures err == None
      ensures Fires(loopStep, batchSize) ==>
        currentEpoch == old(currentEpoch) + 1 && store.series == Record(old(store.series), names[..|metrics|], metrics)
      ensures !Fires(loopStep, batchSize) ==>
        currentEpoch == old(currentEpoch) && store.series == old(store.series)
    {
      steps := steps + [loopStep];
      assert steps[..|steps| - 1] == old(steps);
      if loopStep > 0 && loopStep % batchSize == 0 {
        currentEpoch := currentEpoch + 1;
        ghost var start := store.series;
        for i := 0 to |metrics|
          modifies store
          invariant store.series == Record(start, names[..i], metrics[..i])
        {
          assert names[..i + 1][..i] == names[..i] && metrics[..i + 1][..i] == metrics[..i];
          store.series := Append(store.series, names[i], metrics[i]);
        }
        assert metrics[..|metrics|] == metrics;
      }
      err := None;
    }
  }
}
