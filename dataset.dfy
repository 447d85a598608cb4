/** dataset/dataset.go: the correlation matrix, the column-major copy of a table and the rows
    handed to the table writer. */
module Dataset {
  import opened Basics
  import opened Floats

  /** The part of a gota DataFrame the core reads: column names and, row by row, the cells
      already converted with Float(), a non-numeric cell being NaN. */
  datatype DataFrame = DataFrame(names: seq<string>, rows: seq<seq<Float>>)

  /** gota keeps names unique and every row as wide as the header. */
  predicate Valid(df: DataFrame)
  {
    && Distinct(df.names)
    && forall r :: 0 <= r < |df.rows| ==> |df.rows[r]| == |df.names|
  }

  function Nrow(df: DataFrame): nat
  {
    |df.rows|
  }

  function Ncol(df: DataFrame): nat
  {
    |df.names|
  }

  /** Column `c`, all rows, NaNs included. */
  function Column(df: DataFrame, c: nat): (col: seq<Float>)
    requires Valid(df) && c < Ncol(df)
    ensures |col| == Nrow(df)
    ensures forall r :: 0 <= r < Nrow(df) ==> col[r] == df.rows[r][c]
  {
    seq(Nrow(df), r requires 0 <= r < Nrow(df) => df.rows[r][c])
  }

  /** The first position of `x` in `s`. */
  function IndexOf(s: seq<string>, x: string): (r: Option<nat>)
    ensures r.None? <==> x !in s
    ensures r.Some? ==> r.value < |s| && s[r.value] == x
    ensures r.Some? ==> forall k :: 0 <= k < r.value ==> s[k] != x
  {
    if |s| == 0 then None
    else if s[0] == x then Some(0)
    else match IndexOf(s[1..], x)
      case None => None
      case Some(k) => Some(k + 1)
  }

  /** df.Col(name).Float() for a name the frame has. */
  function Col(df: DataFrame, name: string): (col: seq<Float>)
    requires Valid(df) && name in df.names
    ensures |col| == Nrow(df)
  {
    Column(df, IndexOf(df.names, name).value)
  }

  /** Because names are unique, looking a column up by its own name finds that column. */
  lemma ColByOwnName(df: DataFrame, c: nat)
    requires Valid(df) && c < Ncol(df)
    ensures Col(df, df.names[c]) == Column(df, c)
  {
  }

  /** df.Subset(i): the frame restricted to row `i`. */
  function Subset(df: DataFrame, i: nat): (row: DataFrame)
    requires Valid(df) && i < Nrow(df)
    ensures Valid(row) && Nrow(row) == 1 && row.names == df.names
  {
    DataFrame(df.names, [df.rows[i]])
  }

  lemma SubsetCol(df: DataFrame, i: nat, name: string)
    requires Valid(df) && i < Nrow(df) && name in df.names
    ensures Col(Subset(df, i), name)[0] == Col(df, name)[i]
  {
  }

  /** What GetCorrelationMatrix leaves in row `i`: Go's zero value left of the diagonal,
      1.0 on it, and the correlation of the two full columns right of it. */
  predicate IsCorrelationRow(row: seq<Float>, df: DataFrame, corr: (seq<Float>, seq<Float>) -> Float, i: nat)
    requires Valid(df) && i < Ncol(df)
  {
    && |row| == Ncol(df)
    && forall j :: 0 <= j < Ncol(df) ==>
         row[j] == if j < i then Zero else if j == i then One else corr(Column(df, i), Column(df, j))
  }

  predicate IsCorrelationMatrix(m: seq<seq<Float>>, df: DataFrame, corr: (seq<Float>, seq<Float>) -> Float)
    requires Valid(df)
  {
    && |m| == Ncol(df)
    && forall i :: 0 <= i < Ncol(df) ==> IsCorrelationRow(m[i], df, corr, i)
  }

  /** GetCorrelationMatrix, with stat.Correlation given as `corr`. */
  method GetCorrelationMatrix(df: DataFrame, corr: (seq<Float>, seq<Float>) -> Float) returns (m: seq<seq<Float>>)
    requires Valid(df)
    ensures IsCorrelationMatrix(m, df, corr)
  {
    var columns := df.names;
    var n := |columns|;
    var corrMatrix := new seq<Float>[n];
    for i := 0 to n
      invariant forall k :: 0 <= k < i ==> IsCorrelationRow(corrMatrix[k], df, corr, k)
    {
      var row := new Float[n](_ => Zero);
      for j := i to n
        modifies row
        invariant forall k :: 0 <= k < n ==>
          row[k] == if k < i || j <= k then Zero else if k == i then One else corr(Column(df, i), Column(df, k))
      {
        if i == j {
          row[j] := One;
          continue;
        }
        ColByOwnName(df, i);
        ColByOwnName(df, j);
        var col1 := Col(df, columns[i]);
        var col2 := Col(df, columns[j]);
        row[j] := corr(col1, col2);
      }
      corrMatrix[i] := row[..];
    }
    m := corrMatrix[..];
  }

  /** self-correlation is the constant 1.0, whatever `corr` would say */
  lemma CorrelationDiagonal(m: seq<seq<Float>>, df: DataFrame, corr: (seq<Float>, seq<Float>) -> Float, i: nat)
    requires Valid(df) && IsCorrelationMatrix(m, df, corr) && i < Ncol(df)
    ensures |m[i]| == Ncol(df) && m[i][i] == One
  {
    assert IsCorrelationRow(m[i], df, corr, i);
  }

  lemma CorrelationUpper(m: seq<seq<Float>>, df: DataFrame, corr: (seq<Float>, seq<Float>) -> Float, i: nat, j: nat)
    requires Valid(df) && IsCorrelationMatrix(m, df, corr) && i < j < Ncol(df)
    ensures |m[i]| == Ncol(df) && m[i][j] == corr(Col(df, df.names[i]), Col(df, df.names[j]))
  {
    assert IsCorrelationRow(m[i], df, corr, i);
    ColByOwnName(df, i);
    ColByOwnName(df, j);
  }

  /** the lower triangle keeps make()'s zero value: nothing mirrors the upper one */
  lemma CorrelationLower(m: seq<seq<Float>>, df: DataFrame, corr: (seq<Float>, seq<Float>) -> Float, i: nat, j: nat)
    requires Valid(df) && IsCorrelationMatrix(m, df, corr) && j < i < Ncol(df)
    ensures |m[i]| == Ncol(df) && m[i][j] == Zero
  {
    assert IsCorrelationRow(m[i], df, corr, i);
  }

  predicate Symmetric(m: seq<seq<Float>>)
  {
    forall i, j :: 0 <= i < |m| && 0 <= j < |m| ==> j < |m[i]| && i < |m[j]| && m[i][j] == m[j][i]
  }

  /** The result is symmetric exactly when every computed correlation happens to be 0.0. */
  lemma CorrelationSymmetricIff(m: seq<seq<Float>>, df: DataFrame, corr: (seq<Float>, seq<Float>) -> Float)
    requires Valid(df) && IsCorrelationMatrix(m, df, corr)
    ensures Symmetric(m) <==>
      forall i, j :: 0 <= i < j < Ncol(df) ==> corr(Column(df, i), Column(df, j)) == Zero
  {
    var n := Ncol(df);
    if Symmetric(m) {
      forall i, j | 0 <= i < j < n ensures corr(Column(df, i), Column(df, j)) == Zero {
        CorrelationLower(m, df, corr, j, i);
        assert IsCorrelationRow(m[i], df, corr, i);
      }
    }
    if forall i, j :: 0 <= i < j < n ==> corr(Column(df, i), Column(df, j)) == Zero {
      forall i, j | 0 <= i < n && 0 <= j < n ensures j < |m[i]| && i < |m[j]| && m[i][j] == m[j][i] {
        assert IsCorrelationRow(m[i], df, corr, i);
        assert IsCorrelationRow(m[j], df, corr, j);
      }
    }
  }

  /** A row-major table read column by column; `width` is the number of columns. */
  function Transpose(rows: seq<seq<Float>>, width: nat): (t: seq<seq<Float>>)
    requires forall r :: 0 <= r < |rows| ==> |rows[r]| == width
    ensures |t| == width
    ensures forall c :: 0 <= c < width ==> |t[c]| == |rows|
    ensures forall c, r :: 0 <= c < width && 0 <= r < |rows| ==> t[c][r] == rows[r][c]
  {
    seq(width, c requires 0 <= c < width => seq(|rows|, r requires 0 <= r < |rows| => rows[r][c]))
  }

  /** Reading the columns back row by row gives the original table. */
  lemma TransposeTwice(rows: seq<seq<Float>>, width: nat)
    requires forall r :: 0 <= r < |rows| ==> |rows[r]| == width
    ensures Transpose(Transpose(rows, width), |rows|) == rows
  {
    var t := Transpose(Transpose(rows, width), |rows|);
    forall r | 0 <= r < |rows| ensures t[r] == rows[r] { }
  }

  /** ToFloatMatrix: one fresh slice per column, cell (i, j) being df.Elem(j, i). */
  method ToFloatMatrix(df: DataFrame) returns (matrix: seq<array<Float>>)
    requires Valid(df)
    ensures |matrix| == Ncol(df)
    ensures forall i :: 0 <= i < |matrix| ==> matrix[i].Length == Nrow(df)
    ensures Columns(matrix) == Transpose(df.rows, Ncol(df))
    ensures forall i :: 0 <= i < |matrix| ==> fresh(matrix[i])
    ensures forall i, j :: 0 <= i < j < |matrix| ==> matrix[i] != matrix[j]
  {
    var rows := Nrow(df);
    var cols := Ncol(df);
    matrix := [];
    for i := 0 to cols
      invariant |matrix| == i
      invariant forall k :: 0 <= k < i ==> matrix[k].Length == rows
      invariant forall k, j :: 0 <= k < i && 0 <= j < rows ==> matrix[k][j] == df.rows[j][k]
      invariant forall k :: 0 <= k < i ==> fresh(matrix[k])
      invariant forall k, l :: 0 <= k < l < i ==> matrix[k] != matrix[l]
    {
      var column := new Float[rows](_ => Zero);
      for j := 0 to rows
        invariant forall l :: 0 <= l < j ==> column[l] == df.rows[l][i]
        invariant forall k, l :: 0 <= k < i && 0 <= l < rows ==> matrix[k][l] == df.rows[l][k]
      {
        column[j] := df.rows[j][i];
      }
      matrix := matrix + [column];
    }
    var t := Transpose(df.rows, cols);
    forall k | 0 <= k < cols ensures Columns(matrix)[k] == t[k] {
      assert matrix[k][..] == t[k];
    }
  }

  /** CorrelationMatrix.Print without the terminal: the header and the rows it hands to the
      table writer, `format` standing for fmt.Sprintf("%0.2f", ·). */
  method PrintRows(corrMat: seq<seq<Float>>, headers: seq<string>, format: Float -> string)
    returns (tableHeader: seq<string>, table: seq<seq<string>>)
    requires forall index :: 0 <= index < |corrMat| && |corrMat[index]| > 0 ==> index < |headers|
    ensures tableHeader == [""] + headers
    ensures |table| == |corrMat|
    ensures forall index :: 0 <= index < |table| ==> |table[index]| == |corrMat[index]| + 1
    ensures forall index :: 0 <= index < |table| && |corrMat[index]| == 0 ==> table[index] == [""]
    ensures forall index :: 0 <= index < |table| && |corrMat[index]| > 0 ==> table[index][0] == headers[index]
    ensures forall index, k :: 0 <= index < |table| && 0 <= k < |corrMat[index]| ==>
      table[index][k + 1] == format(corrMat[index][k])
  {
    tableHeader := [""] + headers;
    table := [];
    for index := 0 to |corrMat|
      invariant |table| == index
      invariant forall x :: 0 <= x < index ==> |table[x]| == |corrMat[x]| + 1
      invariant forall x :: 0 <= x < index && |corrMat[x]| == 0 ==> table[x] == [""]
      invariant forall x :: 0 <= x < index && |corrMat[x]| > 0 ==> table[x][0] == headers[x]
      invariant forall x, k :: 0 <= x < index && 0 <= k < |corrMat[x]| ==> table[x][k + 1] == format(corrMat[x][k])
    {
      var row := corrMat[index];
      var stringRow := new string[|row| + 1](_ => "");
      for i := 0 to |row|
        invariant i > 0 ==> stringRow[0] == headers[index]
        invariant forall k :: 0 <= k < i ==> stringRow[k + 1] == format(row[k])
        invariant forall k :: i < k <= |row| ==> stringRow[k] == ""
        invariant i == 0 ==> stringRow[0] == ""
      {
        if i == 0 {
          stringRow[i] := headers[index];
        }
        stringRow[i + 1] := format(row[i]);
      }
      table := table + [stringRow[..]];
    }
  }
}
