// The root package's Matrix: a list of row arrays plus the column metadata
// (names and enumerations) that fixes the number of columns.
module Matrices {
  import opened Wrappers
  import opened Numeric
  import opened Grids
  import opened Vectors
  import opened ColumnMetadata
  import opened ColumnStats
  import opened Folds

  // The messages of the exceptions the matrix code throws (values Java appends are not modelled).
  const NoColumns := "You must add some columns before you add any rows."
  const BadRow := "Invalid row index: "
  const BadColumn := "Invalid column index: "
  const DestinationRange := "Out of range for destination matrix."
  const SourceRange := "Out of range for source matrix."
  const TooSmall := "The supplied vector is too small to fill a matrix of size ("
  const CannotSerialize := "Cannot serialize a Matrix with 0 rows or 0 columns."
  const NoCanDo := "No can do"
  const MultiColumn := "Cannot convert a multi-column matrix to one-hot representation"
  const ShapeMismatch := "Mismatching size"

  /** Whether a vector becomes a matrix's single row or its single column. */
  datatype VectorType = RowVector | ColumnVector

  /** The contents of a list of row arrays. */
  function RowsOf(rows: seq<array<real>>): (g: seq<seq<real>>)
    reads rows
    ensures |g| == |rows| && forall i :: 0 <= i < |rows| ==> g[i] == rows[i][..]
  {
    if |rows| == 0 then [] else RowsOf(rows[..|rows| - 1]) + [rows[|rows| - 1][..]]
  }

  class Matrix {
    var data: seq<array<real>>
    const metadata: Metadata

    /** Every row has one entry per column and no row array occurs twice. */
    ghost predicate Valid()
      reads this, metadata
    {
      metadata.Valid() &&
      (forall i :: 0 <= i < |data| ==> data[i].Length == |metadata.attributeNames|) &&
      (forall i, j :: 0 <= i < j < |data| ==> data[i] != data[j])
    }

    function Rows(): nat
      reads this
    {
      |data|
    }

    /** `cols`: the number of column names in the metadata. */
    function Cols(): nat
      reads metadata
    {
      |metadata.attributeNames|
    }

    /** The entries, row by row. */
    function Cells(): (g: seq<seq<real>>)
      reads this, metadata, data
      requires Valid()
      ensures IsRect(g, Rows(), Cols())
      ensures forall i :: 0 <= i < |data| ==> g[i] == data[i][..]
    {
      RowsOf(data)
    }

    /** `new Matrix()`: no rows and no columns. */
    constructor Empty()
      ensures Valid() && data == [] && fresh(metadata)
      ensures metadata.fileName == "" && metadata.Snapshot() == Columns([], [], [])
    {
      data := [];
      metadata := new Metadata();
    }

    /** `checkIndex`: the row is checked before the column. */
    function CheckIndex(row: int, column: int): (status: Outcome)
      reads this, metadata
      ensures status.Pass? <==> 0 <= row < Rows() && 0 <= column < Cols()
      ensures !(0 <= row < Rows()) ==> status == Fail(IllegalArgument(BadRow))
      ensures 0 <= row < Rows() && !(0 <= column < Cols()) ==> status == Fail(IllegalArgument(BadColumn))
    {
      if row < 0 || row >= |data| then Fail(IllegalArgument(BadRow))
      else if column < 0 || column >= |metadata.attributeNames| then Fail(IllegalArgument(BadColumn))
      else Pass
    }

    /** `get(row, column)`. */
    function Get(row: int, column: int): (r: Result<real>)
      reads this, metadata, data
      requires Valid()
      ensures r.Err? <==> CheckIndex(row, column).Fail?
      ensures r.Err? ==> r.error == CheckIndex(row, column).error
      ensures r.Ok? ==> r.value == Cells()[row][column]
    {
      match CheckIndex(row, column)
      case Fail(e) => Err(e)
      case Pass => Ok(data[row][column])
    }

    /** `set(row, column, value)`: exactly one entry changes. */
    method Set(row: int, column: int, value: real) returns (status: Outcome)
      requires Valid()
      modifies data
      ensures Valid() && status == CheckIndex(row, column)
      ensures status.Fail? ==> Cells() == old(Cells())
      ensures status.Pass? ==> Cells() == old(Cells())[row := old(Cells())[row][column := value]]
    {
      status := CheckIndex(row, column);
      if status.Pass? {
        data[row][column] := value;
      }
    }

    /** Reading an entry back after setting it gives the value; every other entry is unchanged. */
    lemma SetThenGet(before: seq<seq<real>>, row: nat, column: nat, value: real, r: nat, c: nat)
      requires Valid() && IsRect(before, Rows(), Cols()) && row < Rows() && column < Cols()
      requires Cells() == before[row := before[row][column := value]]
      requires r < Rows() && c < Cols()
      ensures Get(r, c) == Ok(if r == row && c == column then value else before[r][c])
    {
    }

    /** `swapRows(a, b)`: exchanges two row references; fails without change on a bad index. */
    method SwapRows(a: int, b: int) returns (status: Outcome)
      requires Valid()
      modifies this
      ensures Valid() && Rows() == old(Rows())
      ensures status.Fail? <==> !(0 <= a < Rows() && 0 <= b < Rows())
      ensures status.Fail? ==> status.error == IndexOutOfBounds && data == old(data)
      ensures status.Pass? ==> data == old(data)[a := old(data)[b]][b := old(data)[a]]
      ensures Cells() == if status.Pass? then old(Cells())[a := old(Cells())[b]][b := old(Cells())[a]] else old(Cells())
    {
      if a < 0 || a >= |data| || b < 0 || b >= |data| {
        return Fail(IndexOutOfBounds);
      }
      var temp := data[a];
      data := data[a := data[b]][b := temp];
      status := Pass;
    }

    /**
     * `swapColumns(a, b)`: exchanges the two entries in every row, then the two
     * metadata columns; a bad index fails before anything changes.
     */
    method SwapColumns(a: int, b: int) returns (status: Outcome)
      requires Valid()
      modifies data, metadata
      ensures Valid() && metadata.fileName == old(metadata.fileName)
      ensures status.Fail? <==> !(0 <= a < old(Cols()) && 0 <= b < old(Cols()))
      ensures status.Fail? ==> status.error == IndexOutOfBounds && Cells() == old(Cells()) && metadata.Snapshot() == old(metadata.Snapshot())
      ensures status.Pass? ==> Cells() == SwappedColumns(old(Cells()), old(Cols()), a, b)
      ensures status.Pass? ==> metadata.Snapshot() == SwapColumnsOf(old(metadata.Snapshot()), a, b)
    {
      var cols := |metadata.attributeNames|;
      if a < 0 || a >= cols || b < 0 || b >= cols {
        return Fail(IndexOutOfBounds);
      }
      ghost var g := Cells();
      SwapInRows(data, g, cols, a, b);
      HoldsRows(data, SwappedColumns(g, cols, a, b));
      status := metadata.SwapColumns(a, b);
    }

    /** `fill(value)`: every entry becomes `value`. */
    method Fill(value: real)
      requires Valid()
      modifies data
      ensures Valid() && Cells() == Filled(Rows(), Cols(), value)
    {
      var i := 0;
      while i < |data|
        invariant 0 <= i <= |data|
        invariant forall k :: 0 <= k < |data| ==> data[k][..] == if k < i then Constant(Cols(), value) else old(data[k][..])
      {
        FillRow(data[i], value);
        i := i + 1;
      }
    }

    /** `scale(scalar)`: every entry is multiplied by `scalar`. */
    method Scale(scalar: real)
      requires Valid()
      modifies data
      ensures Valid() && Cells() == ScaledRows(old(Cells()), scalar)
    {
      ghost var g := Cells();
      ScaleRows(data, g, scalar);
      HoldsRows(data, ScaledRows(g, scalar));
    }

    /**
     * `new Matrix(rows, cols)`: `cols` continuous columns named `col_0`,
     * `col_1`, ..., then `rows` fresh zero rows; a negative count adds nothing,
     * and adding a row while there is no column throws.
     */
    static method Create(rows: int, cols: int) returns (r: Result<Matrix>)
      ensures r.Err? <==> rows > 0 && cols <= 0
      ensures r.Err? ==> r.error == IllegalArgument(NoColumns)
      ensures r.Ok? ==> fresh(r.value) && fresh(r.value.metadata) && r.value.Valid()
      ensures r.Ok? ==> forall i :: 0 <= i < r.value.Rows() ==> fresh(r.value.data[i])
      ensures r.Ok? ==> r.value.Cells() == Zeros(Clip(rows), Clip(cols))
      ensures r.Ok? ==> r.value.metadata.fileName == "" && r.value.metadata.Snapshot() == ContinuousColumns(Clip(cols))
    {
      var m := new Matrix.Empty();
      ContinuousColumnsNone();
      m.NewColumns(cols);
      var status := m.NewRows(rows);
      if status.Fail? {
        return Err(status.error);
      }
      return Ok(m);
    }

    /**
     * `newColumns(n)` on a matrix whose columns are all continuous and named
     * after their positions: `n` more such columns (none when `n` is negative);
     * every row is dropped.
     */
    method NewColumns(n: int)
      requires Valid() && metadata.Snapshot() == ContinuousColumns(Cols())
      modifies this, metadata
      ensures Valid() && data == [] && metadata.fileName == old(metadata.fileName)
      ensures metadata.Snapshot() == ContinuousColumns(old(Cols()) + Clip(n))
    {
      data := [];
      var start := |metadata.attributeNames|;
      var c := 0;
      while c < n
        invariant 0 <= c <= Clip(n) && data == []
        invariant metadata.Valid() && metadata.fileName == old(metadata.fileName)
        invariant metadata.Snapshot() == ContinuousColumns(start + c)
      {
        ghost var before := metadata.Snapshot();
        metadata.AddNumberedColumn(0);
        NumberedColumnAdded(before, metadata.Snapshot(), start + c);
        c := c + 1;
      }
    }

    /** `newRow()`: a fresh zero row at the bottom; throws when there is no column. */
    method NewRow() returns (r: Result<array<real>>)
      requires Valid()
      modifies this
      ensures Valid()
      ensures r.Err? <==> Cols() == 0
      ensures r.Err? ==> r.error == IllegalArgument(NoColumns) && data == old(data)
      ensures r.Ok? ==> fresh(r.value) && data == old(data) + [r.value]
      ensures r.Ok? ==> Cells() == old(Cells()) + [Constant(Cols(), 0.0)]
    {
      var columns := |metadata.attributeNames|;
      if columns == 0 {
        return Err(IllegalArgument(NoColumns));
      }
      var newRow := new real[columns](_ => 0.0);
      assert newRow[..] == Constant(columns, 0.0);
      data := data + [newRow];
      assert Valid();
      assert Cells() == old(Cells()) + [newRow[..]];
      return Ok(newRow);
    }

    /**
     * `newRows(n)`: `n` fresh zero rows after the existing ones (none when `n`
     * is negative); with no column the first new row throws and nothing is added.
     */
    method NewRows(n: int) returns (status: Outcome)
      requires Valid()
      modifies this
      ensures Valid()
      ensures status.Fail? <==> n > 0 && Cols() == 0
      ensures status.Fail? ==> status.error == IllegalArgument(NoColumns) && data == old(data)
      ensures status.Pass? ==> |data| == |old(data)| + Clip(n) && data[..|old(data)|] == old(data)
      ensures status.Pass? ==> forall k :: |old(data)| <= k < |data| ==> fresh(data[k])
      ensures status.Pass? ==> Cells() == old(Cells()) + Zeros(Clip(n), Cols())
    {
      ghost var before := Cells();
      var i := 0;
      while i < n
        invariant 0 <= i <= Clip(n) && |data| == |old(data)| + i && data[..|old(data)|] == old(data)
        invariant i > 0 ==> Cols() > 0
        invariant Valid() && Cells() == before + Zeros(i, Cols())
        invariant forall k :: |old(data)| <= k < |data| ==> fresh(data[k])
      {
        var row := NewRow();
        if row.Err? {
          return Fail(row.error);
        }
        ZerosStep(i, Cols());
        i := i + 1;
      }
      status := Pass;
    }

    /**
     * `deserialize(vector, rows, columns)`: throws when the vector holds fewer
     * than `rows * columns` values; otherwise a fresh matrix whose row `r`
     * holds a copy of entries `r * columns .. r * columns + columns - 1`.
     */
    static method Deserialize(vector: Vector, rows: int, columns: int) returns (r: Result<Matrix>)
      requires vector.Valid()
      ensures r.Err? <==> vector.len < rows * columns || (rows > 0 && columns <= 0)
      ensures r.Err? && vector.len < rows * columns ==> r.error == IllegalArgument(TooSmall)
      ensures r.Err? && vector.len >= rows * columns ==> r.error == IllegalArgument(NoColumns)
      ensures r.Ok? ==> fresh(r.value) && fresh(r.value.metadata) && r.value.Valid()
      ensures r.Ok? ==> forall i :: 0 <= i < r.value.Rows() ==> fresh(r.value.data[i])
      ensures r.Ok? ==> Clip(rows) * Clip(columns) <= vector.len
      ensures r.Ok? ==> r.value.Cells() == Unflatten(vector.Elements(), Clip(rows), Clip(columns))
      ensures r.Ok? ==> r.value.metadata.Snapshot() == ContinuousColumns(Clip(columns))
    {
      if vector.len < rows * columns {
        return Err(IllegalArgument(TooSmall));
      }
      var created := Create(rows, columns);
      if created.Err? {
        return Err(created.error);
      }
      var output := created.value;
      ClipProduct(rows, columns, vector.len);
      ghost var u := Unflatten(vector.Elements(), Clip(rows), Clip(columns));
      ReadRows(output.data, vector, Clip(columns), u);
      HoldsRows(output.data, u);
      return Ok(output);
    }

    /**
     * `serialize()`: throws on a matrix with no row or no column; otherwise a
     * fresh vector holding row `i` at offset `i * cols`, for every row.
     */
    method Serialize() returns (r: Result<Vector>)
      requires Valid()
      ensures r.Err? <==> Rows() == 0 || Cols() == 0
      ensures r.Err? ==> r.error == IllegalState(CannotSerialize)
      ensures r.Ok? ==> fresh(r.value) && fresh(r.value.vals) && r.value.Valid() && r.value.start == 0 && !r.value.nullBacked
      ensures r.Ok? ==> r.value.Elements() == Flatten(Cells())
    {
      if |data| == 0 || |metadata.attributeNames| == 0 {
        return Err(IllegalState(CannotSerialize));
      }
      var cols := |metadata.attributeNames|;
      ghost var g := Cells();
      var output := new Vector.Make(|data| * cols);
      WriteRows(data, g, cols, output);
      return Ok(output);
    }

    /**
     * `copyBlock(destRow, destCol, that, rowBegin, colBegin, rowCount, colCount)`:
     * throws when the rectangle does not fit the destination, then when it does
     * not fit the source; otherwise makes the `colCount` as-written metadata
     * copies, which throw once `destCol + i` is no column of `that`, and then
     * copies the rectangle of values, leaving every other cell unchanged.
     */
    method CopyBlock(destRow: nat, destCol: nat, that: Matrix, rowBegin: nat, colBegin: nat, rowCount: nat, colCount: nat)
      returns (status: Outcome)
      requires Valid() && that.Valid() && Separate(this, that)
      modifies metadata, data
      ensures Valid() && Rows() == old(Rows()) && Cols() == old(Cols()) && metadata.fileName == old(metadata.fileName)
      ensures that.Valid() && that.Cells() == old(that.Cells())
      ensures !(destRow + rowCount <= Rows() && destCol + colCount <= Cols()) ==>
        status == Fail(IllegalArgument(DestinationRange))
      ensures destRow + rowCount <= Rows() && destCol + colCount <= Cols() &&
              !(rowBegin + rowCount <= that.Rows() && colBegin + colCount <= that.Cols()) ==>
        status == Fail(IllegalArgument(SourceRange))
      ensures !(destRow + rowCount <= Rows() && destCol + colCount <= Cols() &&
                rowBegin + rowCount <= that.Rows() && colBegin + colCount <= that.Cols()) ==>
        Cells() == old(Cells()) && metadata.Snapshot() == old(metadata.Snapshot())
      ensures destRow + rowCount <= Rows() && destCol + colCount <= Cols() &&
              rowBegin + rowCount <= that.Rows() && colBegin + colCount <= that.Cols() ==>
        var copied := CopyColumnsAsWritten(old(metadata.Snapshot()), that.metadata.Snapshot(), colBegin, destCol, colCount);
        status == copied.status && metadata.Snapshot() == copied.cols &&
        Cells() == if status.Pass? then PasteBlock(old(Cells()), that.Cells(), Rows(), Cols(), that.Cols(),
                                                   destRow, destCol, rowBegin, colBegin, rowCount, colCount)
                   else old(Cells())
    {
      if destRow + rowCount > |data| || destCol + colCount > |metadata.attributeNames| {
        return Fail(IllegalArgument(DestinationRange));
      } else if rowBegin + rowCount > |that.data| || colBegin + colCount > |that.metadata.attributeNames| {
        return Fail(IllegalArgument(SourceRange));
      }
      status := CopyInRange(destRow, destCol, that, rowBegin, colBegin, rowCount, colCount);
    }

    /**
     * `transpose()`: a fresh `cols` x `rows` matrix with `res[j][i] == this[i][j]`;
     * building it throws, as `new Matrix(cols, rows)` does, when there are columns but no rows.
     */
    method Transpose() returns (r: Result<Matrix>)
      requires Valid()
      ensures r.Err? <==> Cols() > 0 && Rows() == 0
      ensures r.Err? ==> r.error == IllegalArgument(NoColumns)
      ensures r.Ok? ==> fresh(r.value) && fresh(r.value.metadata) && r.value.Valid()
      ensures r.Ok? ==> forall i :: 0 <= i < r.value.Rows() ==> fresh(r.value.data[i])
      ensures r.Ok? ==> r.value.Cells() == Transposed(Cells(), Cols())
    {
      var created := Create(|metadata.attributeNames|, |data|);
      if created.Err? {
        return Err(created.error);
      }
      var res := created.value;
      TransposeMatrix(this, res);
      return Ok(res);
    }

    /**
     * `multiply(a, b, transposeA, transposeB)`: allocates the
     * `Height(a, transposeA)` x `Width(b, transposeB)` result first (which throws
     * when it has rows but no columns), throws when the inner dimensions differ,
     * and otherwise sets each entry to the dot product of a row of `op(a)` and a
     * column of `op(b)`.
     */
    static method Multiply(a: Matrix, b: Matrix, transposeA: bool, transposeB: bool) returns (r: Result<Matrix>)
      requires a.Valid() && b.Valid()
      ensures r.Err? <==> (Height(a, transposeA) > 0 && Width(b, transposeB) == 0) || Width(a, transposeA) != Height(b, transposeB)
      ensures Height(a, transposeA) > 0 && Width(b, transposeB) == 0 ==> r == Err(IllegalArgument(NoColumns))
      ensures !(Height(a, transposeA) > 0 && Width(b, transposeB) == 0) && r.Err? ==> r.error == IllegalArgument(NoCanDo)
      ensures r.Ok? ==> fresh(r.value) && fresh(r.value.metadata) && r.value.Valid()
      ensures r.Ok? ==> forall i :: 0 <= i < r.value.Rows() ==> fresh(r.value.data[i])
      ensures r.Ok? ==>
        r.value.Cells() == Times(Op(a.Cells(), a.Cols(), transposeA), Op(b.Cells(), b.Cols(), transposeB),
                                 Height(a, transposeA), Width(a, transposeA), Width(b, transposeB))
    {
      var created := Create(if transposeA then |a.metadata.attributeNames| else |a.data|,
                            if transposeB then |b.data| else |b.metadata.attributeNames|);
      if created.Err? {
        return Err(created.error);
      }
      var res := created.value;
      var inner := if transposeA then |a.data| else |a.metadata.attributeNames|;
      if inner != (if transposeB then |b.metadata.attributeNames| else |b.data|) {
        return Err(IllegalArgument(NoCanDo));
      }
      ProductInto(a, b, transposeA, transposeB, res, inner);
      return Ok(res);
    }

    /**
     * `new Matrix(vector, vectorType)`: a fresh 1 x n matrix holding the vector
     * as its row, or an n x 1 matrix holding it as its column. A row matrix of
     * an empty vector has a row but no column, which throws.
     */
    static method FromVector(vector: Vector, vectorType: VectorType) returns (r: Result<Matrix>)
      requires vector.Valid()
      ensures r.Err? <==> vectorType == RowVector && vector.len == 0
      ensures r.Err? ==> r.error == IllegalArgument(NoColumns)
      ensures r.Ok? ==> fresh(r.value) && fresh(r.value.metadata) && r.value.Valid()
      ensures r.Ok? ==> forall i :: 0 <= i < r.value.Rows() ==> fresh(r.value.data[i])
      ensures r.Ok? && vectorType == RowVector ==> r.value.Cells() == [vector.Elements()]
      ensures r.Ok? && vectorType == ColumnVector ==> r.value.Cells() == ColumnGrid(vector.Elements())
    {
      var created := Create(if vectorType == RowVector then 1 else vector.len,
                            if vectorType == RowVector then vector.len else 1);
      if created.Err? {
        return Err(created.error);
      }
      var m := created.value;
      if vectorType == RowVector {
        var copied := vector.ToDoubleArray();
        var row := copied.value;
        ArrayCopy(row, 0, m.data[0], 0, row.Length);
        assert row[0..row.Length] == row[..];
        assert m.data[0][..] == row[..];
        assert m.Cells() == [vector.Elements()];
      } else {
        FillColumn(m.data, vector);
        HoldsRows(m.data, ColumnGrid(vector.Elements()));
      }
      return Ok(m);
    }

    /** The entries of column `col`; none when the index is out of range. */
    function ColumnValues(col: int): (s: seq<real>)
      reads this, metadata, data
      requires Valid()
      ensures 0 <= col < Cols() ==> |s| == Rows() && forall i :: 0 <= i < Rows() ==> s[i] == Cells()[i][col]
    {
      if 0 <= col < |metadata.attributeNames| then Column(Cells(), col) else []
    }

    /**
     * `columnMin(col)`: the smallest known entry of the column, or
     * `Double.MAX_VALUE` when none is known; indexing a row throws on a bad column.
     */
    method ColumnMin(col: int) returns (r: Result<real>)
      requires Valid()
      ensures r.Err? <==> Rows() > 0 && !(0 <= col < Cols())
      ensures r.Err? ==> r.error == IndexOutOfBounds
      ensures r.Ok? ==> r.value == MinKnown(ColumnValues(col))
    {
      if |data| > 0 && !(0 <= col < |metadata.attributeNames|) {
        return Err(IndexOutOfBounds);
      }
      ghost var s := ColumnValues(col);
      var min := KnownMinOf(data, col, s);
      return Ok(min);
    }

    /**
     * `columnMax(col)`: the largest known entry of the column, or
     * `-Double.MAX_VALUE` when none is known.
     */
    method ColumnMax(col: int) returns (r: Result<real>)
      requires Valid()
      ensures r.Err? <==> Rows() > 0 && !(0 <= col < Cols())
      ensures r.Err? ==> r.error == IndexOutOfBounds
      ensures r.Ok? ==> r.value == MaxKnown(ColumnValues(col))
    {
      if |data| > 0 && !(0 <= col < |metadata.attributeNames|) {
        return Err(IndexOutOfBounds);
      }
      ghost var s := ColumnValues(col);
      var max := KnownMaxOf(data, col, s);
      return Ok(max);
    }

    /**
     * `columnMean(column)`: the sum of the known entries over their count,
     * NaN when none is known.
     */
    method ColumnMean(column: int) returns (r: Result<Mean>)
      requires Valid()
      ensures r.Err? <==> Rows() > 0 && !(0 <= column < Cols())
      ensures r.Err? ==> r.error == IndexOutOfBounds
      ensures r.Ok? ==> r.value == MeanOf(ColumnValues(column))
    {
      if |data| > 0 && !(0 <= column < |metadata.attributeNames|) {
        return Err(IndexOutOfBounds);
      }
      ghost var s := ColumnValues(column);
      var sum, count := KnownSumOf(data, column, s);
      if count == 0 {
        return Ok(NotANumber);
      }
      return Ok(Value(sum / count as real));
    }

    /**
     * `fill(supplier)`: entries are set row by row, left to right, each from
     * the next draw; draw `k` of the supplier is `source(k)`, the first one
     * used is `first`, and `next` is the first one left unused.
     */
    method FillFrom(source: nat -> real, first: nat) returns (next: nat)
      requires Valid()
      modifies data
      ensures Valid() && next == first + Rows() * Cols()
      ensures Flatten(Cells()) == Supplied(source, first, Rows() * Cols())
    {
      var cols := |metadata.attributeNames|;
      next := first;
      var i := 0;
      while i < |data|
        invariant 0 <= i <= |data| && next == first + i * cols
        invariant forall k :: 0 <= k < i ==> data[k][..] == Supplied(source, first + k * cols, cols)
      {
        FillRowFrom(data[i], source, next);
        next := next + cols;
        i := i + 1;
      }
      FlattenSupplied(Cells(), cols, source, first);
    }

    /**
     * `addScaled(that, scalar)`: throws on a shape mismatch; otherwise adds
     * `scalar` times each entry of `that` to the matching entry, row by row.
     * `that` may be this matrix itself.
     */
    method AddScaled(that: Matrix, scalar: real) returns (status: Outcome)
      requires Valid() && that.Valid() && (that == this || Separate(this, that))
      modifies data
      ensures Valid()
      ensures status.Fail? <==> that.Rows() != Rows() || that.Cols() != Cols()
      ensures status.Fail? ==> status.error == IllegalArgument(ShapeMismatch) && Cells() == old(Cells())
      ensures status.Pass? ==> Cells() == PlusScaledRows(old(Cells()), scalar, old(that.Cells()))
    {
      if |that.data| != |data| || |that.metadata.attributeNames| != |metadata.attributeNames| {
        return Fail(IllegalArgument(ShapeMismatch));
      }
      ghost var g, h := Cells(), that.Cells();
      AddScaledRows(data, that.data, g, h, scalar);
      assert Cells() == PlusScaledRows(g, scalar, h);
      status := Pass;
    }

    /**
     * `toOneHot()`: only for a one-column matrix. Each entry is rounded to a
     * label by `(int) Math.round`; the result has one column per label from 0
     * to the largest label and a single 1 per row, in its label's column. A
     * largest label of `Integer.MAX_VALUE` overflows the column count, and a
     * negative label throws when its entry is set.
     */
    method ToOneHot() returns (r: Result<Matrix>)
      requires Valid()
      ensures Cols() != 1 ==> r == Err(IllegalState(MultiColumn))
      ensures Cols() == 1 ==>
        (r.Err? <==> MaxLabel(Labels(Cells())) == IntMax || exists i :: 0 <= i < Rows() && Labels(Cells())[i] < 0)
      ensures Cols() == 1 && MaxLabel(Labels(Cells())) == IntMax ==> r == Err(IllegalArgument(NoColumns))
      ensures Cols() == 1 && MaxLabel(Labels(Cells())) < IntMax && r.Err? ==> r.error == IllegalArgument(BadColumn)
      ensures r.Ok? ==> Cols() == 1 && fresh(r.value) && fresh(r.value.metadata) && r.value.Valid()
      ensures r.Ok? ==> r.value.Cells() == OneHotOf(Labels(Cells()))
    {
      if |metadata.attributeNames| != 1 {
        return Err(IllegalState(MultiColumn));
      }
      ghost var g := Cells();
      ghost var labels := Labels(g);
      var maxValue := LargestLabel(data, labels);
      r := BuildOneHot(data, labels, maxValue);
      assert Cells() == g;
    }

    /**
     * `computeFoldSizes(totalLength, folds)`: `totalLength / folds` rows per
     * fold, and one more for each of the first `totalLength % folds` folds;
     * zero folds divide by zero.
     */
    static method ComputeFoldSizes(totalLength: nat, folds: nat) returns (r: Result<array<nat>>)
      ensures r.Err? <==> folds == 0
      ensures r.Err? ==> r.error == Arithmetic
      ensures r.Ok? ==> fresh(r.value) && r.value[..] == FoldSizes(totalLength, folds)
    {
      if folds == 0 {
        return Err(Arithmetic);
      }
      var foldSize := totalLength / folds;
      var usedRows := foldSize * folds;
      var unusedRows := totalLength - usedRows;
      assert unusedRows == totalLength % folds;
      var foldSizes := new nat[folds](_ => foldSize);
      var i := 0;
      while i < unusedRows
        invariant 0 <= i <= unusedRows
        invariant forall k :: 0 <= k < folds ==> foldSizes[k] == if k < i then foldSize + 1 else foldSize
      {
        foldSizes[i] := foldSizes[i] + 1;
        i := i + 1;
      }
      assert foldSizes[..] == FoldSizes(totalLength, folds);
      return Ok(foldSizes);
    }

    /**
     * `matrixFold(foldSizes, foldIndex, other)`: a fresh copy of the rows of
     * fold `foldIndex` of `other`, the rows that follow the earlier folds,
     * with `other`'s column metadata.
     */
    static method MatrixFold(foldSizes: array<nat>, foldIndex: int, other: Matrix) returns (r: Result<Matrix>)
      requires other.Valid()
      ensures r.Ok? ==> fresh(r.value) && fresh(r.value.metadata) && r.value.Valid()
      ensures !(0 <= foldIndex < foldSizes.Length) ==> r == Err(IndexOutOfBounds)
      ensures 0 <= foldIndex < foldSizes.Length ==>
        var size, before := foldSizes[foldIndex], Total(foldSizes[..foldIndex]);
        (r.Err? <==> (size > 0 && other.Cols() == 0) || before + size > other.Rows()) &&
        (size > 0 && other.Cols() == 0 ==> r == Err(IllegalArgument(NoColumns))) &&
        (r.Err? && !(size > 0 && other.Cols() == 0) ==> r == Err(IllegalArgument(SourceRange))) &&
        (r.Ok? ==> r.value.Cells() == other.Cells()[before..before + size])
      ensures r.Ok? ==> r.value.metadata.Snapshot() == other.metadata.Snapshot()
      ensures other.Valid() && other.Cells() == old(other.Cells())
    {
      if foldIndex < 0 || foldIndex >= foldSizes.Length {
        return Err(IndexOutOfBounds);
      }
      var foldSize := foldSizes[foldIndex];
      var rowsBefore := RowsBefore(foldSizes, foldIndex);
      r := FoldCopy(foldSize, rowsBefore, other);
    }

    /**
     * `matrixWithoutFold(foldSizes, foldIndex, other)`: a fresh matrix with
     * every row of `other` except those of fold `foldIndex`, in order, and
     * `other`'s column metadata. When the fold is larger than `other`, the
     * result has no rows.
     */
    static method MatrixWithoutFold(foldSizes: array<nat>, foldIndex: int, other: Matrix) returns (r: Result<Matrix>)
      requires other.Valid()
      ensures r.Ok? ==> fresh(r.value) && fresh(r.value.metadata) && r.value.Valid()
      ensures !(0 <= foldIndex < foldSizes.Length) ==> r == Err(IndexOutOfBounds)
      ensures 0 <= foldIndex < foldSizes.Length ==>
        var size, before := foldSizes[foldIndex], Total(foldSizes[..foldIndex]);
        var n := other.Rows() - size;
        (r.Err? <==> (n > 0 && other.Cols() == 0) || before > Clip(n)) &&
        (n > 0 && other.Cols() == 0 ==> r == Err(IllegalArgument(NoColumns))) &&
        (r.Err? && !(n > 0 && other.Cols() == 0) ==> r == Err(IllegalArgument(DestinationRange))) &&
        (r.Ok? ==> r.value.Cells() == if n >= 0 then other.Cells()[..before] + other.Cells()[before + size..] else [])
      ensures r.Ok? ==> r.value.metadata.Snapshot() == other.metadata.Snapshot()
      ensures other.Valid() && other.Cells() == old(other.Cells())
    {
      if foldIndex < 0 || foldIndex >= foldSizes.Length {
        return Err(IndexOutOfBounds);
      }
      var foldSize := foldSizes[foldIndex];
      var rowsBefore := RowsBefore(foldSizes, foldIndex);
      r := CopyWithoutFold(foldSize, rowsBefore, other);
    }

    /**
     * The two copy loops of `copyBlock`, once the rectangle is known to fit both
     * matrices: the metadata loop, then, unless it threw, the data loop.
     */
    method CopyInRange(destRow: nat, destCol: nat, that: Matrix, rowBegin: nat, colBegin: nat, rowCount: nat, colCount: nat)
      returns (status: Outcome)
      requires Valid() && that.Valid() && Separate(this, that)
      requires destRow + rowCount <= Rows() && destCol + colCount <= Cols()
      requires rowBegin + rowCount <= that.Rows() && colBegin + colCount <= that.Cols()
      modifies metadata, data
      ensures Valid() && Rows() == old(Rows()) && Cols() == old(Cols()) && metadata.fileName == old(metadata.fileName)
      ensures that.Valid() && that.Cells() == old(that.Cells())
      ensures var copied := CopyColumnsAsWritten(old(metadata.Snapshot()), that.metadata.Snapshot(), colBegin, destCol, colCount);
        status == copied.status && metadata.Snapshot() == copied.cols
      ensures status.Fail? ==> Cells() == old(Cells())
      ensures status.Pass? ==> Cells() == PasteBlock(old(Cells()), that.Cells(), Rows(), Cols(), that.Cols(),
                                                    destRow, destCol, rowBegin, colBegin, rowCount, colCount)
    {
      status := CopyMatrixColumns(this, that, destCol, colBegin, colCount);
      if status.Fail? {
        return;
      }
      PasteMatrix(this, that, destRow, destCol, rowBegin, colBegin, rowCount, colCount);
    }
  }

  /** The loop of `swapColumns`: entries `a` and `b` exchanged in every row. */
  method SwapInRows(rows: seq<array<real>>, ghost g: seq<seq<real>>, cols: nat, a: nat, b: nat)
    requires Holds(rows, g) && IsRect(g, |g|, cols) && a < cols && b < cols
    requires forall i, j :: 0 <= i < j < |rows| ==> rows[i] != rows[j]
    modifies rows
    ensures Holds(rows, SwappedColumns(g, cols, a, b))
  {
    ghost var swapped := SwappedColumns(g, cols, a, b);
    var i := 0;
    while i < |rows|
      invariant 0 <= i <= |rows|
      invariant forall k :: 0 <= k < |rows| ==> rows[k][..] == if k < i then swapped[k] else g[k]
    {
      var row := rows[i];
      var valueTemp := row[a];
      row[a] := row[b];
      row[b] := valueTemp;
      i := i + 1;
    }
  }

  /** The metadata loop of `copyBlock`, from `that` into `m`: the entries stay as they were. */
  method CopyMatrixColumns(m: Matrix, that: Matrix, destCol: nat, colBegin: nat, colCount: nat) returns (status: Outcome)
    requires m.Valid() && that.Valid() && Separate(m, that)
    requires destCol + colCount <= m.Cols() && colBegin + colCount <= that.Cols()
    modifies m.metadata
    ensures unchanged(m, that, that.metadata)
    ensures m.Valid() && that.Valid() && m.Cols() == old(m.Cols()) && m.metadata.fileName == old(m.metadata.fileName)
    ensures m.Cells() == old(m.Cells()) && that.Cells() == old(that.Cells())
    ensures var copied := CopyColumnsAsWritten(old(m.metadata.Snapshot()), that.metadata.Snapshot(), colBegin, destCol, colCount);
      status == copied.status && m.metadata.Snapshot() == copied.cols
  {
    status := CopyColumnRange(that.metadata, m.metadata, colBegin, destCol, colCount);
  }

  /** The data loop of `copyBlock`, from `that` into `m`, once the rectangle is known to fit both. */
  method PasteMatrix(m: Matrix, that: Matrix, destRow: nat, destCol: nat, rowBegin: nat, colBegin: nat, rowCount: nat, colCount: nat)
    requires m.Valid() && that.Valid() && Separate(m, that)
    requires destRow + rowCount <= m.Rows() && destCol + colCount <= m.Cols()
    requires rowBegin + rowCount <= that.Rows() && colBegin + colCount <= that.Cols()
    modifies m.data
    ensures unchanged(m, that, m.metadata, that.metadata)
    ensures m.Valid() && that.Valid() && that.Cells() == old(that.Cells())
    ensures m.Cells() == PasteBlock(old(m.Cells()), that.Cells(), m.Rows(), m.Cols(), that.Cols(),
                                    destRow, destCol, rowBegin, colBegin, rowCount, colCount)
  {
    ghost var g, h := m.Cells(), that.Cells();
    ghost var p := PasteBlock(g, h, |m.data|, m.Cols(), that.Cols(), destRow, destCol, rowBegin, colBegin, rowCount, colCount);
    PasteBlockRows(g, h, |m.data|, m.Cols(), that.Cols(), destRow, destCol, rowBegin, colBegin, rowCount, colCount);
    PasteRows(m.data, that.data, g, h, p, |m.metadata.attributeNames|, |that.metadata.attributeNames|,
              destRow, destCol, rowBegin, colBegin, rowCount, colCount);
    HoldsRows(m.data, p);
    HoldsRows(that.data, h);
  }

  /** The inner loop of `fill(value)`. */
  method FillRow(row: array<real>, value: real)
    modifies row
    ensures row[..] == Constant(row.Length, value)
  {
    var j := 0;
    while j < row.Length
      invariant 0 <= j <= row.Length
      invariant row[..j] == Constant(j, value)
    {
      row[j] := value;
      j := j + 1;
    }
    assert row[..] == row[..j];
  }

  /** The loop of `scale(scalar)`: every row is scaled in place. */
  method ScaleRows(rows: seq<array<real>>, ghost g: seq<seq<real>>, scalar: real)
    requires Holds(rows, g) && forall i, j :: 0 <= i < j < |rows| ==> rows[i] != rows[j]
    modifies rows
    ensures Holds(rows, ScaledRows(g, scalar))
  {
    var i := 0;
    while i < |rows|
      invariant 0 <= i <= |rows|
      invariant forall k :: 0 <= k < |rows| ==> rows[k][..] == if k < i then Scaled(g[k], scalar) else g[k]
    {
      ScaleRow(rows[i], scalar);
      i := i + 1;
    }
  }

  /** The loop of the column-vector constructor: row `k`'s single entry becomes element `k`. */
  method FillColumn(rows: seq<array<real>>, vector: Vector)
    requires vector.Valid() && |rows| == vector.len
    requires forall k :: 0 <= k < |rows| ==> rows[k].Length == 1 && rows[k] != vector.vals
    requires forall i, j :: 0 <= i < j < |rows| ==> rows[i] != rows[j]
    modifies rows
    ensures Holds(rows, ColumnGrid(vector.Elements()))
  {
    var i := 0;
    while i < |rows|
      invariant 0 <= i <= |rows| && vector.Elements() == old(vector.Elements())
      invariant forall k :: 0 <= k < i ==> rows[k][..] == [vector.Elements()[k]]
    {
      rows[i][0] := vector.Get(i);
      i := i + 1;
    }
  }

  /** The loop of `columnMin`: `s` holds entry `col` of each row. */
  method KnownMinOf(rows: seq<array<real>>, col: int, ghost s: seq<real>) returns (min: real)
    requires |s| == |rows| && forall i :: 0 <= i < |rows| ==> 0 <= col < rows[i].Length && rows[i][col] == s[i]
    ensures min == MinKnown(s)
  {
    min := MaxValue;
    var i := 0;
    while i < |rows|
      invariant 0 <= i <= |rows|
      invariant min == MinKnown(s[..i])
    {
      var val := rows[i][col];
      assert s[..i + 1][..i] == s[..i] && s[i] == val;
      if val != Unknown {
        min := Min(min, val);
      }
      i := i + 1;
    }
    assert s[..i] == s;
  }

  /** The loop of `columnMax`. */
  method KnownMaxOf(rows: seq<array<real>>, col: int, ghost s: seq<real>) returns (max: real)
    requires |s| == |rows| && forall i :: 0 <= i < |rows| ==> 0 <= col < rows[i].Length && rows[i][col] == s[i]
    ensures max == MaxKnown(s)
  {
    max := -MaxValue;
    var i := 0;
    while i < |rows|
      invariant 0 <= i <= |rows|
      invariant max == MaxKnown(s[..i])
    {
      var val := rows[i][col];
      assert s[..i + 1][..i] == s[..i] && s[i] == val;
      if val != Unknown {
        max := Max(max, val);
      }
      i := i + 1;
    }
    assert s[..i] == s;
  }

  /** The loop of `columnMean`: the sum and the count of the known entries. */
  method KnownSumOf(rows: seq<array<real>>, col: int, ghost s: seq<real>) returns (sum: real, count: nat)
    requires |s| == |rows| && forall i :: 0 <= i < |rows| ==> 0 <= col < rows[i].Length && rows[i][col] == s[i]
    ensures sum == KnownSum(s) && count == KnownCount(s)
  {
    sum, count := 0.0, 0;
    var i := 0;
    while i < |rows|
      invariant 0 <= i <= |rows|
      invariant sum == KnownSum(s[..i]) && count == KnownCount(s[..i])
    {
      var val := rows[i][col];
      assert s[..i + 1][..i] == s[..i] && s[i] == val;
      if val != Unknown {
        sum := sum + val;
        count := count + 1;
      }
      i := i + 1;
    }
    assert s[..i] == s;
  }

  /** The inner loop of `scale(scalar)`. */
  method ScaleRow(row: array<real>, scalar: real)
    modifies row
    ensures row[..] == Scaled(old(row[..]), scalar)
  {
    var j := 0;
    while j < row.Length
      invariant 0 <= j <= row.Length
      invariant forall k :: 0 <= k < j ==> row[k] == old(row[k]) * scalar
      invariant forall k :: j <= k < row.Length ==> row[k] == old(row[k])
    {
      row[j] := row[j] * scalar;
      j := j + 1;
    }
    assert forall k :: 0 <= k < row.Length ==> row[..][k] == Scaled(old(row[..]), scalar)[k];
  }

  /** The loop of `addScaled`: each row of `dst` gets `scalar` times the matching row of `src`. */
  method AddScaledRows(dst: seq<array<real>>, src: seq<array<real>>, ghost g: seq<seq<real>>, ghost h: seq<seq<real>>,
                       scalar: real)
    requires Holds(dst, g) && Holds(src, h) && |dst| == |src|
    requires forall k :: 0 <= k < |dst| ==> dst[k].Length == src[k].Length
    requires forall i, j :: 0 <= i < j < |dst| ==> dst[i] != dst[j] && src[i] != src[j]
    requires dst == src || forall i, j :: 0 <= i < |dst| && 0 <= j < |src| ==> dst[i] != src[j]
    modifies dst
    ensures |g| == |h| && forall k :: 0 <= k < |g| ==> |g[k]| == |h[k]|
    ensures Holds(dst, PlusScaledRows(g, scalar, h))
  {
    var i := 0;
    while i < |dst|
      invariant 0 <= i <= |dst|
      invariant forall k :: i <= k < |dst| ==> src[k][..] == h[k]
      invariant forall k :: 0 <= k < |dst| ==> dst[k][..] == if k < i then PlusScaled(g[k], scalar, h[k]) else g[k]
    {
      AddScaledRow(dst[i], src[i], scalar);
      i := i + 1;
    }
  }

  /** One row of `addScaled`: `dest.addScaled(src, scalar)` on the two rows wrapped as vectors. */
  method AddScaledRow(dest: array<real>, src: array<real>, scalar: real)
    requires dest.Length == src.Length
    modifies dest
    ensures dest[..] == PlusScaled(old(dest[..]), scalar, old(src[..]))
  {
    var d := new Vector.Wrap(dest);
    var s := new Vector.Wrap(src);
    assert d.Elements() == dest[..] && s.Elements() == src[..];
    var added := d.AddScaled(scalar, s);
    assert added.Pass?;
    if dest == src {
      AddedToItself(old(dest[..]), scalar);
    } else {
      OverwriteAll(old(dest[..]), PlusScaled(old(dest[..]), scalar, old(src[..])));
    }
  }

  /** A row added in place to a multiple of itself is the elementwise `a + scalar * a`. */
  lemma AddedToItself(a: seq<real>, scalar: real)
    ensures AddedInPlace(a, 0, 0, scalar, |a|) == PlusScaled(a, scalar, a)
  {
    AddedInPlaceForward(a, 0, 0, scalar, |a|);
    var r := AddedInPlace(a, 0, 0, scalar, |a|);
    forall j | 0 <= j < |a|
      ensures r[j] == PlusScaled(a, scalar, a)[j]
    {
      assert r[j] == PlusTimes(a[j], scalar, a[j]);
    }
  }

  /** `matrixFold` once the fold's size and the rows ahead of it are known. */
  method FoldCopy(size: nat, before: nat, other: Matrix) returns (r: Result<Matrix>)
    requires other.Valid()
    ensures r.Ok? ==> fresh(r.value) && fresh(r.value.metadata) && r.value.Valid()
    ensures r.Err? <==> (size > 0 && other.Cols() == 0) || before + size > other.Rows()
    ensures size > 0 && other.Cols() == 0 ==> r == Err(IllegalArgument(NoColumns))
    ensures r.Err? && !(size > 0 && other.Cols() == 0) ==> r == Err(IllegalArgument(SourceRange))
    ensures r.Ok? ==> r.value.Cells() == other.Cells()[before..before + size]
    ensures r.Ok? ==> r.value.metadata.Snapshot() == other.metadata.Snapshot()
    ensures other.Valid() && other.Cells() == old(other.Cells())
  {
    var created := Matrix.Create(size, |other.metadata.attributeNames|);
    if created.Err? {
      return Err(created.error);
    }
    var newMatrix := created.value;
    var status := CopyFold(newMatrix, other, before, size);
    if status.Fail? {
      return Err(status.error);
    }
    return Ok(newMatrix);
  }

  /** `matrixWithoutFold` once the fold's size and the rows ahead of it are known. */
  method CopyWithoutFold(size: nat, before: nat, other: Matrix) returns (r: Result<Matrix>)
    requires other.Valid()
    ensures r.Ok? ==> fresh(r.value) && fresh(r.value.metadata) && r.value.Valid()
    ensures var n := other.Rows() - size;
      (r.Err? <==> (n > 0 && other.Cols() == 0) || before > Clip(n)) &&
      (n > 0 && other.Cols() == 0 ==> r == Err(IllegalArgument(NoColumns))) &&
      (r.Err? && !(n > 0 && other.Cols() == 0) ==> r == Err(IllegalArgument(DestinationRange))) &&
      (r.Ok? ==> r.value.Cells() == if n >= 0 then other.Cells()[..before] + other.Cells()[before + size..] else [])
    ensures r.Ok? ==> r.value.metadata.Snapshot() == other.metadata.Snapshot()
    ensures other.Valid() && other.Cells() == old(other.Cells())
  {
    var created := Matrix.Create(|other.data| - size, |other.metadata.attributeNames|);
    if created.Err? {
      return Err(created.error);
    }
    var newMatrix := created.value;
    var status := CopyAroundFold(newMatrix, other, before, size);
    if status.Fail? {
      return Err(status.error);
    }
    return Ok(newMatrix);
  }

  /** The copy in `matrixFold`: the `size` rows from `before` of `other`, with every column's metadata. */
  method CopyFold(newMatrix: Matrix, other: Matrix, before: nat, size: nat) returns (status: Outcome)
    requires newMatrix.Valid() && other.Valid() && Separate(newMatrix, other)
    requires newMatrix.Cells() == Zeros(size, other.Cols())
    requires newMatrix.metadata.Snapshot() == ContinuousColumns(other.Cols())
    modifies newMatrix.metadata, newMatrix.data
    ensures newMatrix.Valid() && other.Valid() && other.Cells() == old(other.Cells())
    ensures status.Fail? <==> before + size > other.Rows()
    ensures status.Fail? ==> status.error == IllegalArgument(SourceRange)
    ensures status.Pass? ==> newMatrix.Cells() == other.Cells()[before..before + size]
    ensures status.Pass? ==> newMatrix.metadata.Snapshot() == other.metadata.Snapshot()
  {
    ghost var g, s := other.Cells(), other.metadata.Snapshot();
    status := CopyAlignedRows(newMatrix, other, before, size);
    if status.Pass? {
      FoldRows(g, other.Rows(), other.Cols(), before, size);
    }
  }

  /**
   * The two copies in `matrixWithoutFold`: the `before` rows ahead of the fold,
   * then the rows after it, each with every column's metadata. A second copy of
   * a negative number of rows copies no row, and its metadata copy repeats the
   * first, so it is left out.
   */
  method CopyAroundFold(newMatrix: Matrix, other: Matrix, before: nat, size: nat) returns (status: Outcome)
    requires newMatrix.Valid() && other.Valid() && Separate(newMatrix, other)
    requires newMatrix.Cells() == Zeros(Clip(other.Rows() - size), other.Cols())
    requires newMatrix.metadata.Snapshot() == ContinuousColumns(other.Cols())
    modifies newMatrix.metadata, newMatrix.data
    ensures newMatrix.Valid() && other.Valid() && other.Cells() == old(other.Cells())
    ensures status.Fail? <==> before > Clip(other.Rows() - size)
    ensures status.Fail? ==> status.error == IllegalArgument(DestinationRange)
    ensures status.Pass? ==>
      newMatrix.Cells() == if other.Rows() >= size then other.Cells()[..before] + other.Cells()[before + size..] else []
    ensures status.Pass? ==> newMatrix.metadata.Snapshot() == other.metadata.Snapshot()
  {
    var rowsAfter := |other.data| - size - before;
    status := CopyBeforeFold(newMatrix, other, before, size);
    if status.Pass? && rowsAfter >= 0 {
      CopyAfterFold(newMatrix, other, before, size);
    }
  }

  /** The first copy of `matrixWithoutFold`: the `before` rows ahead of the fold. */
  method CopyBeforeFold(newMatrix: Matrix, other: Matrix, before: nat, size: nat) returns (status: Outcome)
    requires newMatrix.Valid() && other.Valid() && Separate(newMatrix, other)
    requires newMatrix.Cells() == Zeros(Clip(other.Rows() - size), other.Cols())
    requires newMatrix.metadata.Snapshot() == ContinuousColumns(other.Cols())
    modifies newMatrix.metadata, newMatrix.data
    ensures newMatrix.Valid() && other.Valid() && other.Cells() == old(other.Cells())
    ensures status.Fail? <==> before > Clip(other.Rows() - size)
    ensures status.Fail? ==> status.error == IllegalArgument(DestinationRange)
    ensures status.Pass? ==> newMatrix.Cols() == other.Cols()
    ensures status.Pass? ==>
      newMatrix.Cells() == other.Cells()[..before] + Zeros(Clip(other.Rows() - size), other.Cols())[before..]
    ensures status.Pass? ==> newMatrix.metadata.Snapshot() == other.metadata.Snapshot()
  {
    ghost var g, s := other.Cells(), other.metadata.Snapshot();
    var cols := |other.metadata.attributeNames|;
    ghost var n := Clip(other.Rows() - size);
    assert newMatrix.Rows() == n && newMatrix.Cols() == cols && n <= other.Rows();
    status := CopyAlignedRows(newMatrix, other, 0, before);
    if before <= n {
      RowsBeforeFold(g, other.Rows(), cols, n, before);
    }
  }

  /**
   * `copyBlock(0, 0, other, rowBegin, 0, count, cols)` between two matrices of the
   * same width: `count` rows of `other` from `rowBegin`, and its column metadata,
   * copied over the first rows.
   */
  method CopyAlignedRows(newMatrix: Matrix, other: Matrix, rowBegin: nat, count: nat) returns (status: Outcome)
    requires newMatrix.Valid() && other.Valid() && Separate(newMatrix, other)
    requires newMatrix.Cols() == other.Cols()
    modifies newMatrix.metadata, newMatrix.data
    ensures newMatrix.Valid() && newMatrix.Rows() == old(newMatrix.Rows()) && newMatrix.Cols() == other.Cols()
    ensures other.Valid() && other.Cells() == old(other.Cells()) && other.metadata.Snapshot() == old(other.metadata.Snapshot())
    ensures status.Fail? <==> count > newMatrix.Rows() || rowBegin + count > other.Rows()
    ensures count > newMatrix.Rows() ==> status == Fail(IllegalArgument(DestinationRange))
    ensures count <= newMatrix.Rows() && status.Fail? ==> status == Fail(IllegalArgument(SourceRange))
    ensures status.Pass? ==> newMatrix.metadata.Snapshot() == other.metadata.Snapshot()
    ensures status.Pass? ==>
      newMatrix.Cells() == PasteBlock(old(newMatrix.Cells()), other.Cells(), newMatrix.Rows(), other.Cols(), other.Cols(), 0, 0, rowBegin, 0, count, other.Cols())
  {
    var cols := |other.metadata.attributeNames|;
    AlignedCopyAll(newMatrix.metadata.Snapshot(), other.metadata.Snapshot());
    status := newMatrix.CopyBlock(0, 0, other, rowBegin, 0, count, cols);
  }

  /** The second copy of `matrixWithoutFold`, when the fold fits: the rows after the fold. */
  method CopyAfterFold(newMatrix: Matrix, other: Matrix, before: nat, size: nat)
    requires newMatrix.Valid() && other.Valid() && Separate(newMatrix, other)
    requires before + size <= other.Rows() && newMatrix.Cols() == other.Cols()
    requires newMatrix.Cells() == other.Cells()[..before] + Zeros(other.Rows() - size, other.Cols())[before..]
    requires newMatrix.metadata.Snapshot() == other.metadata.Snapshot()
    modifies newMatrix.metadata, newMatrix.data
    ensures newMatrix.Valid() && other.Valid() && other.Cells() == old(other.Cells())
    ensures newMatrix.Cells() == other.Cells()[..before] + other.Cells()[before + size..]
    ensures newMatrix.metadata.Snapshot() == other.metadata.Snapshot()
  {
    ghost var g, s := other.Cells(), other.metadata.Snapshot();
    ghost var rows, cols := other.Rows(), other.Cols();
    ghost var h := newMatrix.Cells();
    var rowsAfter := |other.data| - size - before;
    AlignedCopyAll(s, s);
    var copied := newMatrix.CopyInRange(before, 0, other, before + size, 0, rowsAfter, |other.metadata.attributeNames|);
    RowsAfterFold(g, rows, cols, before, size, h, newMatrix.Cells());
  }

  /** The loop of `matrixFold` and `matrixWithoutFold` that adds up the sizes of the earlier folds. */
  method RowsBefore(foldSizes: array<nat>, foldIndex: nat) returns (rowsBefore: nat)
    requires foldIndex <= foldSizes.Length
    ensures rowsBefore == Total(foldSizes[..foldIndex])
  {
    rowsBefore := 0;
    var i := 0;
    while i < foldIndex
      invariant 0 <= i <= foldIndex
      invariant rowsBefore == Total(foldSizes[..i])
    {
      TotalStep(foldSizes[..], i);
      assert foldSizes[..][..i + 1] == foldSizes[..i + 1] && foldSizes[..][..i] == foldSizes[..i];
      rowsBefore := rowsBefore + foldSizes[i];
      i := i + 1;
    }
  }

  /** The inner loop of `fill(supplier)`: entry `j` of the row becomes draw `first + j`. */
  method FillRowFrom(row: array<real>, source: nat -> real, first: nat)
    modifies row
    ensures row[..] == Supplied(source, first, row.Length)
  {
    var j := 0;
    while j < row.Length
      invariant 0 <= j <= row.Length
      invariant forall k :: 0 <= k < j ==> row[k] == source(first + k)
    {
      row[j] := source(first + j);
      j := j + 1;
    }
  }

  /** The first loop of `toOneHot`: the largest rounded first entry, or 0 when all are smaller. */
  method LargestLabel(rows: seq<array<real>>, ghost labels: seq<int>) returns (maxValue: nat)
    requires |rows| == |labels|
    requires forall i :: 0 <= i < |rows| ==> rows[i].Length >= 1 && labels[i] == Round(rows[i][0])
    ensures maxValue == MaxLabel(labels)
  {
    maxValue := 0;
    var i := 0;
    while i < |rows|
      invariant 0 <= i <= |rows|
      invariant maxValue == MaxLabel(labels[..i])
    {
      var value := Round(rows[i][0]);
      assert labels[..i + 1][..i] == labels[..i] && labels[i] == value;
      if value > maxValue {
        maxValue := value;
      }
      i := i + 1;
    }
    assert labels[..i] == labels;
  }

  /**
   * The result of `toOneHot` once the largest label is known: allocated with
   * `maxValue + 1` columns, an `int` sum that wraps to `Integer.MIN_VALUE` when
   * `maxValue` is `Integer.MAX_VALUE`, so that `new Matrix` throws; then marked.
   */
  method BuildOneHot(rows: seq<array<real>>, ghost labels: seq<int>, maxValue: nat) returns (r: Result<Matrix>)
    requires |rows| == |labels| && maxValue == MaxLabel(labels)
    requires forall i :: 0 <= i < |rows| ==> rows[i].Length >= 1 && labels[i] == Round(rows[i][0])
    ensures forall i :: 0 <= i < |rows| ==> rows[i][..] == old(rows[i][..])
    ensures r.Err? <==> maxValue == IntMax || exists i :: 0 <= i < |labels| && labels[i] < 0
    ensures maxValue == IntMax ==> r == Err(IllegalArgument(NoColumns))
    ensures maxValue < IntMax && r.Err? ==> r.error == IllegalArgument(BadColumn)
    ensures r.Ok? ==> fresh(r.value) && fresh(r.value.metadata) && r.value.Valid()
    ensures r.Ok? ==> r.value.Cells() == OneHotOf(labels)
  {
    OneHotWidth(rows, labels, maxValue);
    var created := CreateOneHot(|rows|, maxValue);
    if created.Err? {
      return Err(created.error);
    }
    var result := created.value;
    assert forall i :: 0 <= i < |result.data| ==> result.data[i] !in rows;
    r := MarkOneHot(result, rows, labels, maxValue);
    if r.Ok? {
      OneHotOfWidth(labels, maxValue);
    }
  }

  /**
   * `new Matrix(rows, maxValue + 1)` with the `int` sum: a zero matrix one column
   * wider than the largest label, or the exception for no columns when the sum
   * wraps to `Integer.MIN_VALUE`.
   */
  method CreateOneHot(rowCount: nat, maxValue: nat) returns (r: Result<Matrix>)
    requires maxValue <= IntMax && (maxValue == IntMax ==> rowCount > 0)
    ensures r.Err? <==> maxValue == IntMax
    ensures r.Err? ==> r.error == IllegalArgument(NoColumns)
    ensures r.Ok? ==> fresh(r.value) && fresh(r.value.metadata) && r.value.Valid()
    ensures r.Ok? ==> forall i :: 0 <= i < r.value.Rows() ==> fresh(r.value.data[i])
    ensures r.Ok? ==> r.value.Cells() == Zeros(rowCount, maxValue + 1)
  {
    NextInt(maxValue);
    r := Matrix.Create(rowCount, IntOfLong(maxValue + 1));
  }

  /** The second half of `BuildOneHot`: the 1s are set in the fresh zero matrix `result`. */
  method MarkOneHot(result: Matrix, rows: seq<array<real>>, ghost labels: seq<int>, maxValue: nat) returns (r: Result<Matrix>)
    requires result.Valid() && result.Cells() == Zeros(|rows|, maxValue + 1)
    requires |rows| == |labels|
    requires forall i :: 0 <= i < |rows| ==> rows[i].Length >= 1 && labels[i] == Round(rows[i][0])
    requires forall i :: 0 <= i < |result.data| ==> result.data[i] !in rows
    modifies result.data
    ensures forall i :: 0 <= i < |rows| ==> rows[i][..] == old(rows[i][..])
    ensures r.Err? <==> exists i :: 0 <= i < |labels| && !(0 <= labels[i] < maxValue + 1)
    ensures r.Err? ==> r.error == IllegalArgument(BadColumn)
    ensures r.Ok? ==> r.value == result && result.Valid() && result.Cells() == OneHot(labels, maxValue + 1)
  {
    var marked := MarkLabels(rows, labels, result.data, maxValue + 1);
    if marked.Fail? {
      return Err(marked.error);
    }
    HoldsRows(result.data, OneHot(labels, maxValue + 1));
    return Ok(result);
  }

  /** Every label fits an `int`, so the largest does, and only a non-empty table reaches `Integer.MAX_VALUE`. */
  lemma OneHotWidth(rows: seq<array<real>>, labels: seq<int>, maxValue: nat)
    requires |rows| == |labels| && maxValue == MaxLabel(labels)
    requires forall i :: 0 <= i < |rows| ==> rows[i].Length >= 1 && labels[i] == Round(rows[i][0])
    ensures maxValue <= IntMax && (maxValue == IntMax ==> |rows| > 0)
  {
    assert forall i :: 0 <= i < |labels| ==> labels[i] <= IntMax;
    MaxLabelInInt(labels);
  }

  /**
   * The second loop of `toOneHot`: `result.set(i, labels[i], 1)` for each row
   * `i` of the fresh `|rows|` x `width` result `out`; `set` checks the column
   * index and throws at the first label that is not a column.
   */
  method MarkLabels(rows: seq<array<real>>, ghost labels: seq<int>, out: seq<array<real>>, width: nat)
    returns (status: Outcome)
    requires |out| == |rows| == |labels|
    requires forall i :: 0 <= i < |rows| ==> rows[i].Length >= 1 && labels[i] == Round(rows[i][0])
    requires forall i :: 0 <= i < |out| ==> out[i] !in rows && out[i][..] == Constant(width, 0.0)
    requires forall i, j :: 0 <= i < j < |out| ==> out[i] != out[j]
    modifies out
    ensures status.Fail? <==> exists i :: 0 <= i < |labels| && !(0 <= labels[i] < width)
    ensures status.Fail? ==> status.error == IllegalArgument(BadColumn)
    ensures status.Pass? ==> Holds(out, OneHot(labels, width))
  {
    ghost var hot := OneHot(labels, width);
    var i := 0;
    while i < |rows|
      invariant 0 <= i <= |rows|
      invariant forall k :: 0 <= k < |rows| ==> rows[k][..] == old(rows[k][..])
      invariant forall k :: 0 <= k < i ==> 0 <= labels[k] < width
      invariant forall k :: 0 <= k < |out| ==> out[k][..] == if k < i then hot[k] else Constant(width, 0.0)
    {
      var value := Round(rows[i][0]);
      if value < 0 || value >= width {
        return Fail(IllegalArgument(BadColumn));
      }
      out[i][value] := 1.0;
      assert out[i][..] == hot[i];
      i := i + 1;
    }
    status := Pass;
  }

  /** The rows of `op(m)`: the columns of `m` when it is read transposed. */
  function Height(m: Matrix, transpose: bool): nat
    reads m, m.metadata
  {
    if transpose then m.Cols() else m.Rows()
  }

  /** The columns of `op(m)`. */
  function Width(m: Matrix, transpose: bool): nat
    reads m, m.metadata
  {
    if transpose then m.Rows() else m.Cols()
  }

  /** A one-column table. */
  function ColumnGrid(s: seq<real>): (g: seq<seq<real>>)
    ensures IsRect(g, |s|, 1) && forall i :: 0 <= i < |s| ==> g[i][0] == s[i]
  {
    seq(|s|, i requires 0 <= i < |s| => [s[i]])
  }

  /** The loops of `multiply`, once the shapes are known to agree: `res` becomes `op(a) * op(b)`. */
  method ProductInto(a: Matrix, b: Matrix, transposeA: bool, transposeB: bool, res: Matrix, inner: nat)
    requires a.Valid() && b.Valid() && res.Valid()
    requires inner == Width(a, transposeA) == Height(b, transposeB)
    requires res.Rows() == Height(a, transposeA) && res.Cols() == Width(b, transposeB)
    requires forall k :: 0 <= k < res.Rows() ==> res.data[k] !in a.data && res.data[k] !in b.data
    modifies res.data
    ensures unchanged(a, b, res, a.metadata, b.metadata, res.metadata)
    ensures res.Valid()
    ensures res.Cells() == Times(Op(a.Cells(), a.Cols(), transposeA), Op(b.Cells(), b.Cols(), transposeB),
                                 Height(a, transposeA), inner, Width(b, transposeB))
  {
    ghost var ga, gb := a.Cells(), b.Cells();
    ghost var p := Times(Op(ga, a.Cols(), transposeA), Op(gb, b.Cols(), transposeB),
                         Height(a, transposeA), inner, Width(b, transposeB));
    FillProduct(a.data, b.data, ga, gb, |a.metadata.attributeNames|, |b.metadata.attributeNames|,
                transposeA, transposeB, inner, res.data, p);
    HoldsRows(res.data, p);
    HoldsRows(a.data, ga);
    HoldsRows(b.data, gb);
  }

  /** The outer loop of `multiply`: every row of `rows` becomes the matching row of the product `p`. */
  method FillProduct(a: seq<array<real>>, b: seq<array<real>>, ghost ga: seq<seq<real>>, ghost gb: seq<seq<real>>,
                     aCols: nat, bCols: nat, transposeA: bool, transposeB: bool, inner: nat,
                     rows: seq<array<real>>, ghost p: seq<seq<real>>)
    requires Holds(a, ga) && Holds(b, gb) && ProductOf(p, ga, gb, aCols, bCols, transposeA, transposeB, inner)
    requires |rows| == (if transposeA then aCols else |ga|)
    requires forall k :: 0 <= k < |rows| ==> rows[k].Length == (if transposeB then |gb| else bCols)
    requires forall k :: 0 <= k < |rows| ==> rows[k] !in a && rows[k] !in b
    requires forall i, j :: 0 <= i < j < |rows| ==> rows[i] != rows[j]
    modifies rows
    ensures Holds(rows, p) && Holds(a, ga) && Holds(b, gb)
  {
    var i := 0;
    while i < |rows|
      invariant 0 <= i <= |rows|
      invariant Holds(a, ga) && Holds(b, gb)
      invariant forall k :: 0 <= k < i ==> rows[k][..] == p[k]
    {
      ProductRow(a, b, ga, gb, aCols, bCols, transposeA, transposeB, i, inner, rows[i], p);
      i := i + 1;
    }
  }

  /**
   * `p` is `op(ga) * op(gb)`, where `ga` is `aCols` wide, `gb` is `bCols` wide,
   * and the inner sizes of the two operands agree at `inner`.
   */
  ghost predicate ProductOf(p: seq<seq<real>>, ga: seq<seq<real>>, gb: seq<seq<real>>, aCols: nat, bCols: nat,
                            transposeA: bool, transposeB: bool, inner: nat)
  {
    IsRect(ga, |ga|, aCols) && IsRect(gb, |gb|, bCols) &&
    inner == (if transposeA then |ga| else aCols) == (if transposeB then bCols else |gb|) &&
    p == Times(Op(ga, aCols, transposeA), Op(gb, bCols, transposeB),
               if transposeA then aCols else |ga|, inner, if transposeB then |gb| else bCols)
  }

  /** The row arrays hold the table `g`. */
  ghost predicate Holds(rows: seq<array<real>>, g: seq<seq<real>>)
    reads rows
  {
    |rows| == |g| && forall k :: 0 <= k < |rows| ==> rows[k][..] == g[k]
  }

  lemma HoldsRows(rows: seq<array<real>>, g: seq<seq<real>>)
    requires Holds(rows, g)
    ensures RowsOf(rows) == g
  {
  }

  /**
   * The innermost loop of `multiply`: `d += op(a)[i][k] * op(b)[k][j]` for
   * `k` from 0 to `inner - 1`, where `a` and `b` hold the tables `ga` and `gb`.
   */
  method ProductEntry(a: seq<array<real>>, b: seq<array<real>>, ghost ga: seq<seq<real>>, ghost gb: seq<seq<real>>,
                      aCols: nat, bCols: nat, transposeA: bool, transposeB: bool, i: nat, j: nat, inner: nat,
                      ghost p: seq<seq<real>>)
    returns (d: real)
    requires Holds(a, ga) && Holds(b, gb) && ProductOf(p, ga, gb, aCols, bCols, transposeA, transposeB, inner)
    requires i < (if transposeA then aCols else |ga|) && j < (if transposeB then |gb| else bCols)
    ensures d == p[i][j]
  {
    assert p == Times(Op(ga, aCols, transposeA), Op(gb, bCols, transposeB),
                      if transposeA then aCols else |ga|, inner, if transposeB then |gb| else bCols);
    ghost var x := Op(ga, aCols, transposeA)[i];
    ghost var y := Column(Op(gb, bCols, transposeB), j);
    assert |x| == inner && |y| == inner;
    d := 0.0;
    var k := 0;
    while k < inner
      invariant 0 <= k <= inner
      invariant d == Dot(x[..k], y[..k])
    {
      var left := if transposeA then a[k][i] else a[i][k];
      var right := if transposeB then b[j][k] else b[k][j];
      DotStep(x, y, k, left, right);
      d := d + left * right;
      k := k + 1;
    }
    assert x[..k] == x && y[..k] == y;
  }

  /** The middle loop of `multiply`: row `i` of the product `p`. */
  method ProductRow(a: seq<array<real>>, b: seq<array<real>>, ghost ga: seq<seq<real>>, ghost gb: seq<seq<real>>,
                    aCols: nat, bCols: nat, transposeA: bool, transposeB: bool, i: nat, inner: nat,
                    row: array<real>, ghost p: seq<seq<real>>)
    requires Holds(a, ga) && Holds(b, gb) && ProductOf(p, ga, gb, aCols, bCols, transposeA, transposeB, inner)
    requires i < (if transposeA then aCols else |ga|) && row.Length == (if transposeB then |gb| else bCols)
    requires row !in a && row !in b
    modifies row
    ensures |p[i]| == row.Length && row[..] == p[i]
  {
    ghost var target := p[i];
    var j := 0;
    while j < row.Length
      invariant 0 <= j <= row.Length
      invariant Holds(a, ga) && Holds(b, gb)
      invariant row[..j] == target[..j]
    {
      var d := ProductEntry(a, b, ga, gb, aCols, bCols, transposeA, transposeB, i, j, inner, p);
      row[j] := d;
      assert row[..j + 1] == row[..j] + [d];
      j := j + 1;
    }
    assert row[..] == row[..j];
  }

  /** The loops of `transpose`, from `m` into the fresh `res` of the transposed shape. */
  method TransposeMatrix(m: Matrix, res: Matrix)
    requires m.Valid() && res.Valid() && res.Rows() == m.Cols() && res.Cols() == m.Rows()
    requires forall k :: 0 <= k < res.Rows() ==> res.data[k] !in m.data
    modifies res.data
    ensures unchanged(m, res, m.metadata, res.metadata)
    ensures m.Valid() && res.Valid() && m.Cells() == old(m.Cells())
    ensures res.Cells() == Transposed(m.Cells(), m.Cols())
  {
    ghost var g := m.Cells();
    TransposeInto(m.data, g, |m.metadata.attributeNames|, res.data);
    HoldsRows(res.data, Transposed(g, m.Cols()));
  }

  /** The outer loop of `transpose`: row `i` of `src` becomes column `i` of `dst`, for every `i`. */
  method TransposeInto(src: seq<array<real>>, ghost g: seq<seq<real>>, cols: nat, dst: seq<array<real>>)
    requires Holds(src, g) && IsRect(g, |g|, cols)
    requires |dst| == cols && forall j :: 0 <= j < cols ==> dst[j].Length == |src|
    requires forall j, k :: 0 <= j < k < cols ==> dst[j] != dst[k]
    requires forall j :: 0 <= j < cols ==> dst[j] !in src
    modifies dst
    ensures Holds(src, g) && Holds(dst, Transposed(g, cols))
  {
    var i := 0;
    while i < |src|
      invariant 0 <= i <= |src|
      invariant Holds(src, g)
      invariant forall j, k :: 0 <= j < cols && 0 <= k < i ==> dst[j][k] == g[k][j]
    {
      WriteColumn(dst, i, src[i]);
      i := i + 1;
    }
    forall j | 0 <= j < cols ensures dst[j][..] == Transposed(g, cols)[j] {
    }
  }

  /** The inner loop of `transpose`: entry `j` of `src` goes to column `i` of row `j`. */
  method WriteColumn(rows: seq<array<real>>, i: nat, src: array<real>)
    requires |rows| == src.Length && forall j :: 0 <= j < |rows| ==> i < rows[j].Length
    requires forall j, k :: 0 <= j < k < |rows| ==> rows[j] != rows[k]
    requires forall j :: 0 <= j < |rows| ==> rows[j] != src
    modifies rows
    ensures forall j, k :: 0 <= j < |rows| && 0 <= k < rows[j].Length ==> rows[j][k] == if k == i then src[j] else old(rows[j][k])
  {
    var j := 0;
    while j < |rows|
      invariant 0 <= j <= |rows|
      invariant forall m, k :: 0 <= m < |rows| && 0 <= k < rows[m].Length ==> rows[m][k] == if k == i && m < j then src[m] else old(rows[m][k])
    {
      rows[j][i] := src[j];
      j := j + 1;
    }
  }

  /** A Java loop bound: a negative count runs no iteration. */
  function Clip(n: int): nat
  {
    if n < 0 then 0 else n
  }

  /** The inner loop of `deserialize`: `row[c]` becomes `vector.get(offset + c)` for every column `c`. */
  /**
   * The loop of `deserialize`: row `i` of the fresh `rows` becomes the run of
   * `cols` entries of `vector` that starts at `i * cols`.
   */
  method ReadRows(rows: seq<array<real>>, vector: Vector, cols: nat, ghost u: seq<seq<real>>)
    requires vector.Valid() && |rows| * cols <= vector.len && u == Unflatten(vector.Elements(), |rows|, cols)
    requires forall k :: 0 <= k < |rows| ==> rows[k].Length == cols && rows[k] != vector.vals
    requires forall i, j :: 0 <= i < j < |rows| ==> rows[i] != rows[j]
    modifies rows
    ensures Holds(rows, u)
  {
    var i := 0;
    while i < |rows|
      invariant 0 <= i <= |rows|
      invariant forall k :: 0 <= k < i ==> rows[k][..] == u[k]
    {
      UnflattenRow(vector.Elements(), |rows|, cols, i);
      ReadRow(rows[i], vector, i * cols);
      i := i + 1;
    }
  }

  method ReadRow(row: array<real>, vector: Vector, offset: nat)
    requires vector.Valid() && offset + row.Length <= vector.len && row != vector.vals
    modifies row
    ensures row[..] == vector.Elements()[offset..offset + row.Length]
  {
    var c := 0;
    while c < row.Length
      invariant 0 <= c <= row.Length
      invariant row[..c] == vector.Elements()[offset..offset + c]
    {
      row[c] := vector.Get(offset + c);
      c := c + 1;
    }
    assert row[..] == row[..c];
  }

  /** `System.arraycopy` between two different arrays. */
  method ArrayCopy(src: array<real>, srcPos: nat, dest: array<real>, destPos: nat, length: nat)
    requires src != dest && srcPos + length <= src.Length && destPos + length <= dest.Length
    modifies dest
    ensures dest[..] == Overwrite(old(dest[..]), destPos, src[srcPos..srcPos + length])
  {
    var k := 0;
    while k < length
      invariant 0 <= k <= length
      invariant forall j :: 0 <= j < dest.Length ==> dest[j] == if destPos <= j < destPos + k then src[srcPos + j - destPos] else old(dest[j])
    {
      dest[destPos + k] := src[srcPos + k];
      k := k + 1;
    }
  }

  /**
   * The metadata loop of `copyBlock`: column `colBegin + i` of `src` is copied
   * as written to column `destCol + i` of `dst`, for `i` from 0 to `colCount - 1`,
   * until a copy throws.
   */
  method CopyColumnRange(src: Metadata, dst: Metadata, colBegin: nat, destCol: nat, colCount: nat) returns (status: Outcome)
    requires src.Valid() && dst.Valid() && src != dst
    requires colBegin + colCount <= |src.attributeNames| && destCol + colCount <= |dst.attributeNames|
    modifies dst
    ensures dst.Valid() && dst.fileName == old(dst.fileName) && |dst.attributeNames| == old(|dst.attributeNames|)
    ensures var copied := CopyColumnsAsWritten(old(dst.Snapshot()), src.Snapshot(), colBegin, destCol, colCount);
      status == copied.status && dst.Snapshot() == copied.cols
  {
    ghost var m0, s := dst.Snapshot(), src.Snapshot();
    var i := 0;
    while i < colCount
      invariant 0 <= i <= colCount
      invariant src.Valid() && src.Snapshot() == s
      invariant dst.Valid() && |dst.attributeNames| == |m0.names| && dst.fileName == old(dst.fileName)
      invariant CopyColumnsAsWritten(m0, s, colBegin, destCol, i) == Copied(dst.Snapshot(), Pass)
    {
      status := CopyNextColumn(src, dst, colBegin, destCol, i, m0, s);
      if status.Fail? {
        if i + 1 < colCount {
          CopyColumnsAsWrittenStays(m0, s, colBegin, destCol, i + 1, colCount);
        }
        return;
      }
      i := i + 1;
    }
    status := Pass;
  }

  /** One turn of the `copyBlock` metadata loop: column `colBegin + i` of `src` copied as written to column `destCol + i`. */
  method CopyNextColumn(src: Metadata, dst: Metadata, colBegin: nat, destCol: nat, i: nat, ghost m0: Columns, ghost s: Columns)
    returns (status: Outcome)
    requires src.Valid() && dst.Valid() && src != dst && src.Snapshot() == s && m0.Wf()
    requires colBegin + i < |s.names| && destCol + i < |m0.names| && |dst.attributeNames| == |m0.names|
    requires CopyColumnsAsWritten(m0, s, colBegin, destCol, i) == Copied(dst.Snapshot(), Pass)
    modifies dst
    ensures dst.Valid() && dst.fileName == old(dst.fileName) && |dst.attributeNames| == |m0.names|
    ensures CopyColumnsAsWritten(m0, s, colBegin, destCol, i + 1) == Copied(dst.Snapshot(), status)
  {
    CopyColumnsAsWrittenNext(m0, s, colBegin, destCol, i, dst.Snapshot());
    status := src.CopyAttributeAsWritten(dst, colBegin + i, destCol + i);
  }

  /** Once a copy has thrown, the later copies never run: the run ends as it did then. */
  lemma {:induction false} CopyColumnsAsWrittenStays(dst: Columns, src: Columns, colBegin: nat, destCol: nat, k: nat, n: nat)
    requires dst.Wf() && src.Wf() && colBegin + n <= |src.names| && destCol + n <= |dst.names| && k <= n
    requires CopyColumnsAsWritten(dst, src, colBegin, destCol, k).status.Fail?
    ensures CopyColumnsAsWritten(dst, src, colBegin, destCol, n) == CopyColumnsAsWritten(dst, src, colBegin, destCol, k)
    decreases n - k
  {
    if k < n {
      CopyColumnsAsWrittenStays(dst, src, colBegin, destCol, k, n - 1);
    }
  }

  /**
   * The data loop of `copyBlock`: row `rowBegin + i` of `src`, from column
   * `colBegin`, is copied over row `destRow + i` of `dst` from column `destCol`.
   */
  method PasteRows(dst: seq<array<real>>, src: seq<array<real>>, ghost g: seq<seq<real>>, ghost h: seq<seq<real>>,
                   ghost p: seq<seq<real>>, cols: nat, srcCols: nat,
                   destRow: nat, destCol: nat, rowBegin: nat, colBegin: nat, rowCount: nat, colCount: nat)
    requires Holds(dst, g) && Holds(src, h) && IsRect(g, |g|, cols) && IsRect(h, |h|, srcCols)
    requires forall i, j :: 0 <= i < j < |dst| ==> dst[i] != dst[j]
    requires forall i, j :: 0 <= i < |dst| && 0 <= j < |src| ==> dst[i] != src[j]
    requires destRow + rowCount <= |dst| && destCol + colCount <= cols
    requires rowBegin + rowCount <= |src| && colBegin + colCount <= srcCols
    requires |p| == |g| && forall k :: 0 <= k < |g| && !(destRow <= k < destRow + rowCount) ==> p[k] == g[k]
    requires forall k :: destRow <= k < destRow + rowCount ==>
      p[k] == Overwrite(g[k], destCol, h[rowBegin + k - destRow][colBegin..colBegin + colCount])
    modifies dst
    ensures Holds(src, h) && Holds(dst, p)
  {
    var i := 0;
    while i < rowCount
      invariant 0 <= i <= rowCount
      invariant Holds(src, h)
      invariant forall k :: 0 <= k < |dst| && !(destRow <= k < destRow + i) ==> dst[k][..] == g[k]
      invariant forall k :: destRow <= k < destRow + i ==> dst[k][..] == p[k]
    {
      ArrayCopy(src[rowBegin + i], colBegin, dst[destRow + i], destCol, colCount);
      i := i + 1;
    }
  }

  /**
   * The loop of `serialize`: row `i` of the table `g` held by `rows` is written
   * at offset `i * cols` of the fresh zero vector `output`.
   */
  method WriteRows(rows: seq<array<real>>, ghost g: seq<seq<real>>, cols: nat, output: Vector)
    requires Holds(rows, g) && IsRect(g, |rows|, cols) && |rows| > 0 && cols > 0
    requires output.Valid() && output.start == 0 && output.len == |rows| * cols == output.vals.Length
    requires output.vals !in rows && output.vals[..] == Constant(|rows| * cols, 0.0)
    modifies output.vals
    ensures output.Elements() == Flatten(g)
  {
    MulMono(1, |rows|, cols);
    var i := 0;
    while i < |rows|
      invariant 0 <= i <= |rows|
      invariant output.vals[..] == Flatten(g[..i]) + Constant((|rows| - i) * cols, 0.0)
    {
      var row := new Vector.Wrap(rows[i]);
      SerializeStep(g, |rows|, cols, i);
      var status := output.SetFrom(i * cols, row);
      assert row.Elements()[..cols] == g[i];
      i := i + 1;
    }
    assert g[..i] == g;
    assert output.Elements() == output.vals[..];
  }

  /** The bound `deserialize` checks covers the rows and columns its loops visit. */
  lemma ClipProduct(rows: int, columns: int, len: nat)
    requires rows * columns <= len && !(rows > 0 && columns <= 0)
    ensures Clip(rows) * Clip(columns) <= len
  {
  }

  /** One step of `serialize`: writing row `i` at offset `i * cols` extends the flattened prefix. */
  lemma SerializeStep(g: seq<seq<real>>, rows: nat, cols: nat, i: nat)
    requires IsRect(g, rows, cols) && i < rows
    ensures |Flatten(g[..i])| == i * cols && i * cols + cols <= rows * cols
    ensures i * cols + (rows - i) * cols == rows * cols
    ensures Overwrite(Flatten(g[..i]) + Constant((rows - i) * cols, 0.0), i * cols, g[i])
         == Flatten(g[..i + 1]) + Constant((rows - i - 1) * cols, 0.0)
  {
    FlattenIndex(g[..i], i, cols);
    FlattenStep(g, i);
    MulMono(i + 1, rows, cols);
    assert (rows - i) * cols == cols + (rows - i - 1) * cols;
  }

  /** Two matrices share neither metadata nor a row array. */
  ghost predicate Separate(m: Matrix, n: Matrix)
    reads m, n
  {
    m.metadata != n.metadata && forall i, j :: 0 <= i < |m.data| && 0 <= j < |n.data| ==> m.data[i] != n.data[j]
  }
}
