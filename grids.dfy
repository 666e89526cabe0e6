// Pure operations on row-major tables of reals (a sequence of rows), against
// which the Matrix class is specified.
module Grids {
  import opened Numeric

  /** `g` has `rows` rows of `cols` entries each. */
  predicate IsRect(g: seq<seq<real>>, rows: nat, cols: nat)
  {
    |g| == rows && forall i :: 0 <= i < rows ==> |g[i]| == cols
  }

  /** A `rows` x `cols` table holding `v` everywhere. */
  function Filled(rows: nat, cols: nat, v: real): (g: seq<seq<real>>)
    ensures IsRect(g, rows, cols)
    ensures forall i, j :: 0 <= i < rows && 0 <= j < cols ==> g[i][j] == v
  {
    seq(rows, _ => Constant(cols, v))
  }

  /** A `rows` x `cols` table of zeros. */
  function Zeros(rows: nat, cols: nat): (g: seq<seq<real>>)
    ensures IsRect(g, rows, cols)
    ensures forall i, j :: 0 <= i < rows && 0 <= j < cols ==> g[i][j] == 0.0
  {
    Filled(rows, cols, 0.0)
  }

  /** Every entry multiplied by `s`. */
  function ScaledRows(g: seq<seq<real>>, s: real): (h: seq<seq<real>>)
    ensures |h| == |g| && forall i :: 0 <= i < |g| ==> h[i] == Scaled(g[i], s)
  {
    seq(|g|, i requires 0 <= i < |g| => Scaled(g[i], s))
  }

  /** `g + s * h`, entry by entry. */
  function PlusScaledRows(g: seq<seq<real>>, s: real, h: seq<seq<real>>): (r: seq<seq<real>>)
    requires |g| == |h| && forall i :: 0 <= i < |g| ==> |g[i]| == |h[i]|
    ensures |r| == |g| && forall i :: 0 <= i < |g| ==> r[i] == PlusScaled(g[i], s, h[i])
  {
    seq(|g|, i requires 0 <= i < |g| => PlusScaled(g[i], s, h[i]))
  }

  /** One more zero row at the bottom. */
  lemma ZerosStep(rows: nat, cols: nat)
    ensures Zeros(rows + 1, cols) == Zeros(rows, cols) + [Constant(cols, 0.0)]
  {
    assert Zeros(rows + 1, cols)[rows] == Constant(cols, 0.0);
  }

  /** The rows one after another. */
  function Flatten(g: seq<seq<real>>): seq<real>
  {
    if |g| == 0 then [] else Flatten(g[..|g| - 1]) + g[|g| - 1]
  }

  lemma MulMono(a: nat, b: nat, c: nat)
    requires a <= b
    ensures a * c <= b * c
  {
  }

  lemma MulSucc(a: nat, c: nat)
    ensures a * c + c == (a + 1) * c
  {
  }

  /** A rectangular table flattens to `rows * cols` entries. */
  lemma {:induction false} FlattenLength(g: seq<seq<real>>, rows: nat, cols: nat)
    requires IsRect(g, rows, cols)
    ensures |Flatten(g)| == rows * cols
  {
    if rows > 0 {
      FlattenLength(g[..rows - 1], rows - 1, cols);
      assert rows * cols == (rows - 1) * cols + cols;
    }
  }

  /** Row `r`, column `c` of a rectangular table is entry `r * cols + c` of its flattening. */
  lemma {:induction false} FlattenAt(g: seq<seq<real>>, rows: nat, cols: nat, r: nat, c: nat)
    requires IsRect(g, rows, cols) && r < rows && c < cols
    ensures |Flatten(g)| == rows * cols
    ensures r * cols + c < rows * cols && Flatten(g)[r * cols + c] == g[r][c]
  {
    FlattenLength(g, rows, cols);
    var n := rows - 1;
    var front := g[..n];
    FlattenLength(front, n, cols);
    assert Flatten(g) == Flatten(front) + g[n];
    assert rows * cols == n * cols + cols;
    if r < n {
      FlattenAt(front, n, cols, r, c);
      assert front[r] == g[r];
    }
  }

  /** Every entry of a rectangular table sits at `r * cols + c` of its flattening. */
  lemma FlattenIndex(g: seq<seq<real>>, rows: nat, cols: nat)
    requires IsRect(g, rows, cols)
    ensures |Flatten(g)| == rows * cols
    ensures forall r, c :: 0 <= r < rows && 0 <= c < cols ==> r * cols + c < rows * cols && Flatten(g)[r * cols + c] == g[r][c]
  {
    FlattenLength(g, rows, cols);
    forall r, c | 0 <= r < rows && 0 <= c < cols {
      FlattenAt(g, rows, cols, r, c);
    }
  }

  /** `g` is `rows` rows of `cols` entries, entry `(r, c)` being entry `r * cols + c` of `v`. */
  ghost predicate CutFrom(g: seq<seq<real>>, v: seq<real>, rows: nat, cols: nat)
  {
    IsRect(g, rows, cols) &&
    forall r, c :: 0 <= r < rows && 0 <= c < cols ==> r * cols + c < |v| && g[r][c] == v[r * cols + c]
  }

  /** Cuts `v` into `rows` consecutive rows of `cols` entries. */
  function Unflatten(v: seq<real>, rows: nat, cols: nat): (g: seq<seq<real>>)
    requires rows * cols <= |v|
    ensures CutFrom(g, v, rows, cols)
  {
    if rows == 0 then []
    else
      MulSucc(rows - 1, cols);
      var front := Unflatten(v, rows - 1, cols);
      var last := v[(rows - 1) * cols..(rows - 1) * cols + cols];
      AppendRow(v, front, last, rows - 1, cols);
      front + [last]
  }

  /** One more row of `cols` entries, taken from `v` right after the first `rows` rows. */
  lemma AppendRow(v: seq<real>, front: seq<seq<real>>, last: seq<real>, rows: nat, cols: nat)
    requires rows * cols + cols <= |v| && CutFrom(front, v, rows, cols)
    requires last == v[rows * cols..rows * cols + cols]
    ensures CutFrom(front + [last], v, rows + 1, cols)
  {
    var g := front + [last];
    forall r, c | 0 <= r < rows + 1 && 0 <= c < cols
      ensures r * cols + c < |v| && g[r][c] == v[r * cols + c]
    {
      if r == rows {
        assert g[r] == last && last[c] == v[rows * cols + c];
      } else {
        assert g[r] == front[r] && front[r][c] == v[r * cols + c];
      }
    }
  }

  /** Two rectangular tables of the same shape with the same entries are equal. */
  lemma RectEqual(g: seq<seq<real>>, h: seq<seq<real>>, rows: nat, cols: nat)
    requires IsRect(g, rows, cols) && IsRect(h, rows, cols)
    requires forall r, c :: 0 <= r < rows && 0 <= c < cols ==> g[r][c] == h[r][c]
    ensures g == h
  {
    forall r | 0 <= r < rows ensures g[r] == h[r] {
    }
  }

  /** A flat index below `rows * cols` is `r * cols + c` for a row `r` and a column `c`. */
  lemma Split(k: nat, rows: nat, cols: nat) returns (r: nat, c: nat)
    requires k < rows * cols
    ensures r < rows && c < cols && k == r * cols + c
  {
    r, c := k / cols, k % cols;
    if r >= rows {
      MulMono(rows, r, cols);
    }
  }

  /** Cutting a flattened table back into rows gives the table. */
  lemma UnflattenFlatten(g: seq<seq<real>>, rows: nat, cols: nat)
    requires IsRect(g, rows, cols)
    ensures rows * cols == |Flatten(g)| && Unflatten(Flatten(g), rows, cols) == g
  {
    FlattenIndex(g, rows, cols);
    RectEqual(Unflatten(Flatten(g), rows, cols), g, rows, cols);
  }

  /** Flattening the rows cut from a vector of exactly `rows * cols` entries gives the vector. */
  lemma FlattenUnflatten(v: seq<real>, rows: nat, cols: nat)
    requires |v| == rows * cols
    ensures Flatten(Unflatten(v, rows, cols)) == v
  {
    var g := Unflatten(v, rows, cols);
    FlattenIndex(g, rows, cols);
    forall k | 0 <= k < |v| ensures Flatten(g)[k] == v[k] {
      var r, c := Split(k, rows, cols);
      assert g[r][c] == v[k];
    }
  }

  /** Column `j` of a table. */
  function Column(g: seq<seq<real>>, j: nat): (col: seq<real>)
    requires forall i :: 0 <= i < |g| ==> j < |g[i]|
    ensures |col| == |g| && forall i :: 0 <= i < |g| ==> col[i] == g[i][j]
  {
    seq(|g|, i requires 0 <= i < |g| => g[i][j])
  }

  /** The transpose of a `|g|` x `cols` table. */
  function Transposed(g: seq<seq<real>>, cols: nat): (t: seq<seq<real>>)
    requires IsRect(g, |g|, cols)
    ensures IsRect(t, cols, |g|)
    ensures forall i, j :: 0 <= i < |g| && 0 <= j < cols ==> t[j][i] == g[i][j]
  {
    seq(cols, j requires 0 <= j < cols => Column(g, j))
  }

  /** Transposing twice gives the table back. */
  lemma TransposeTwice(g: seq<seq<real>>, rows: nat, cols: nat)
    requires IsRect(g, rows, cols)
    ensures Transposed(Transposed(g, cols), rows) == g
  {
    RectEqual(Transposed(Transposed(g, cols), rows), g, rows, cols);
  }

  /** `g` or its transpose, the operand `multiply` reads under a transpose flag. */
  function Op(g: seq<seq<real>>, cols: nat, transpose: bool): (h: seq<seq<real>>)
    requires IsRect(g, |g|, cols)
    ensures transpose ==> IsRect(h, cols, |g|)
    ensures !transpose ==> IsRect(h, |g|, cols)
  {
    if transpose then Transposed(g, cols) else g
  }

  /** The matrix product of a `rows` x `inner` and an `inner` x `cols` table. */
  function Times(a: seq<seq<real>>, b: seq<seq<real>>, rows: nat, inner: nat, cols: nat): (p: seq<seq<real>>)
    requires IsRect(a, rows, inner) && IsRect(b, inner, cols)
    ensures IsRect(p, rows, cols)
    ensures forall i, j :: 0 <= i < rows && 0 <= j < cols ==> p[i][j] == Dot(a[i], Column(b, j))
  {
    seq(rows, i requires 0 <= i < rows => seq(cols, j requires 0 <= j < cols => Dot(a[i], Column(b, j))))
  }

  /** Multiplying by the identity changes nothing. */
  function Identity(n: nat): (g: seq<seq<real>>)
    ensures IsRect(g, n, n)
    ensures forall i, j :: 0 <= i < n && 0 <= j < n ==> g[i][j] == if i == j then 1.0 else 0.0
  {
    seq(n, i requires 0 <= i < n => seq(n, j requires 0 <= j < n => if i == j then 1.0 else 0.0))
  }

  /** The dot product with a unit vector picks one entry. */
  lemma {:induction false} DotUnit(a: seq<real>, u: seq<real>, k: nat)
    requires |a| == |u| && k < |a|
    requires forall i :: 0 <= i < |u| ==> u[i] == if i == k then 1.0 else 0.0
    ensures Dot(a, u) == a[k]
  {
    var n := |a| - 1;
    if n == k {
      DotZero(a[..n], u[..n]);
    } else {
      DotUnit(a[..n], u[..n], k);
    }
  }

  lemma {:induction false} DotZero(a: seq<real>, z: seq<real>)
    requires |a| == |z| && forall i :: 0 <= i < |z| ==> z[i] == 0.0
    ensures Dot(a, z) == 0.0
  {
    if |a| > 0 {
      DotZero(a[..|a| - 1], z[..|z| - 1]);
    }
  }

  /** `g` times the identity is `g`. */
  lemma TimesIdentity(g: seq<seq<real>>, rows: nat, cols: nat)
    requires IsRect(g, rows, cols)
    ensures Times(g, Identity(cols), rows, cols, cols) == g
  {
    var p := Times(g, Identity(cols), rows, cols, cols);
    forall i, j | 0 <= i < rows && 0 <= j < cols ensures p[i][j] == g[i][j] {
      DotUnit(g[i], Column(Identity(cols), j), j);
    }
    RectEqual(p, g, rows, cols);
  }

  /**
   * `dst` with the `rowCount` x `colCount` block of `src` at (`rowBegin`, `colBegin`)
   * written over the block at (`destRow`, `destCol`).
   */
  function PasteBlock(dst: seq<seq<real>>, src: seq<seq<real>>, rows: nat, cols: nat, srcCols: nat,
                      destRow: nat, destCol: nat, rowBegin: nat, colBegin: nat, rowCount: nat, colCount: nat): (g: seq<seq<real>>)
    requires IsRect(dst, rows, cols) && IsRect(src, |src|, srcCols)
    requires destRow + rowCount <= rows && destCol + colCount <= cols
    requires rowBegin + rowCount <= |src| && colBegin + colCount <= srcCols
    ensures IsRect(g, rows, cols)
    ensures forall i, j :: 0 <= i < rows && 0 <= j < cols ==>
      g[i][j] == if destRow <= i < destRow + rowCount && destCol <= j < destCol + colCount
                 then src[rowBegin + i - destRow][colBegin + j - destCol] else dst[i][j]
  {
    seq(rows, i requires 0 <= i < rows =>
      if destRow <= i < destRow + rowCount then PasteRow(dst[i], src[rowBegin + i - destRow], destCol, colBegin, colCount)
      else dst[i])
  }

  /** `dst` with `src[colBegin..colBegin + colCount]` written from `destCol` on. */
  function PasteRow(dst: seq<real>, src: seq<real>, destCol: nat, colBegin: nat, colCount: nat): (row: seq<real>)
    requires destCol + colCount <= |dst| && colBegin + colCount <= |src|
    ensures |row| == |dst|
    ensures forall j :: 0 <= j < |dst| ==> row[j] == if destCol <= j < destCol + colCount then src[colBegin + j - destCol] else dst[j]
  {
    Overwrite(dst, destCol, src[colBegin..colBegin + colCount])
  }

  /** `g` with columns `a` and `b` exchanged in every row. */
  function SwappedColumns(g: seq<seq<real>>, cols: nat, a: nat, b: nat): (h: seq<seq<real>>)
    requires IsRect(g, |g|, cols) && a < cols && b < cols
    ensures IsRect(h, |g|, cols)
    ensures forall i, j :: 0 <= i < |g| && 0 <= j < cols ==> h[i][j] == g[i][if j == a then b else if j == b then a else j]
  {
    seq(|g|, i requires 0 <= i < |g| => g[i][a := g[i][b]][b := g[i][a]])
  }

  /** Flattening one more row appends that row. */
  lemma FlattenStep(g: seq<seq<real>>, i: nat)
    requires i < |g|
    ensures Flatten(g[..i + 1]) == Flatten(g[..i]) + g[i]
  {
    assert g[..i + 1][..i] == g[..i];
  }

  /**
   * Pasting whole rows (every column of a table as wide as the destination)
   * replaces a run of destination rows by a run of source rows.
   */
  lemma PasteFullRows(dst: seq<seq<real>>, src: seq<seq<real>>, rows: nat, cols: nat,
                      destRow: nat, rowBegin: nat, rowCount: nat)
    requires IsRect(dst, rows, cols) && IsRect(src, |src|, cols)
    requires destRow + rowCount <= rows && rowBegin + rowCount <= |src|
    ensures PasteBlock(dst, src, rows, cols, cols, destRow, 0, rowBegin, 0, rowCount, cols)
         == dst[..destRow] + src[rowBegin..rowBegin + rowCount] + dst[destRow + rowCount..]
  {
    var p := PasteBlock(dst, src, rows, cols, cols, destRow, 0, rowBegin, 0, rowCount, cols);
    var q := dst[..destRow] + src[rowBegin..rowBegin + rowCount] + dst[destRow + rowCount..];
    assert |q| == rows;
    forall i | 0 <= i < rows ensures p[i] == q[i] {
      if destRow <= i < destRow + rowCount {
        assert q[i] == src[rowBegin + i - destRow];
      } else if i < destRow {
        assert q[i] == dst[i];
      } else {
        assert q[i] == dst[i];
      }
      assert |p[i]| == |q[i]| == cols;
    }
  }

  /** Row `r` of a cut-up vector is a contiguous run of it. */
  lemma UnflattenRow(v: seq<real>, rows: nat, cols: nat, r: nat)
    requires rows * cols <= |v| && r < rows
    ensures r * cols + cols <= |v| && Unflatten(v, rows, cols)[r] == v[r * cols..r * cols + cols]
  {
    MulMono(r + 1, rows, cols);
  }

  /** A row inside the pasted band is the destination row with the source row's run written over it. */
  lemma PasteBlockRow(dst: seq<seq<real>>, src: seq<seq<real>>, rows: nat, cols: nat, srcCols: nat,
                      destRow: nat, destCol: nat, rowBegin: nat, colBegin: nat, rowCount: nat, colCount: nat, i: nat)
    requires IsRect(dst, rows, cols) && IsRect(src, |src|, srcCols)
    requires destRow + rowCount <= rows && destCol + colCount <= cols
    requires rowBegin + rowCount <= |src| && colBegin + colCount <= srcCols
    requires destRow <= i < destRow + rowCount
    ensures PasteBlock(dst, src, rows, cols, srcCols, destRow, destCol, rowBegin, colBegin, rowCount, colCount)[i]
         == Overwrite(dst[i], destCol, src[rowBegin + i - destRow][colBegin..colBegin + colCount])
  {
  }

  /** `PasteBlock` row by row: the rows of the band are overwritten, the others kept. */
  lemma PasteBlockRows(dst: seq<seq<real>>, src: seq<seq<real>>, rows: nat, cols: nat, srcCols: nat,
                       destRow: nat, destCol: nat, rowBegin: nat, colBegin: nat, rowCount: nat, colCount: nat)
    requires IsRect(dst, rows, cols) && IsRect(src, |src|, srcCols)
    requires destRow + rowCount <= rows && destCol + colCount <= cols
    requires rowBegin + rowCount <= |src| && colBegin + colCount <= srcCols
    ensures var p := PasteBlock(dst, src, rows, cols, srcCols, destRow, destCol, rowBegin, colBegin, rowCount, colCount);
      |p| == rows && (forall k :: 0 <= k < rows && !(destRow <= k < destRow + rowCount) ==> p[k] == dst[k]) &&
      forall k :: destRow <= k < destRow + rowCount ==>
        p[k] == Overwrite(dst[k], destCol, src[rowBegin + k - destRow][colBegin..colBegin + colCount])
  {
    forall k | destRow <= k < destRow + rowCount
      ensures PasteBlock(dst, src, rows, cols, srcCols, destRow, destCol, rowBegin, colBegin, rowCount, colCount)[k]
           == Overwrite(dst[k], destCol, src[rowBegin + k - destRow][colBegin..colBegin + colCount])
    {
      PasteBlockRow(dst, src, rows, cols, srcCols, destRow, destCol, rowBegin, colBegin, rowCount, colCount, k);
    }
  }

  const LongMin: int := -0x8000_0000_0000_0000
  const LongMax: int := 0x7FFF_FFFF_FFFF_FFFF
  const IntMin: int := -0x8000_0000
  const IntMax: int := 0x7FFF_FFFF

  /**
   * `Math.round(x)`: the nearest integer, halves rounded up, clamped to the
   * range of a Java `long`.
   */
  function MathRound(x: real): (n: int)
    ensures LongMin <= n <= LongMax
    ensures LongMin as real - 0.5 <= x < LongMax as real + 0.5 ==> x - 0.5 < n as real <= x + 0.5
    ensures x < LongMin as real - 0.5 ==> n == LongMin
    ensures x >= LongMax as real + 0.5 ==> n == LongMax
  {
    var r := (x + 0.5).Floor;
    if r < LongMin then LongMin else if r > LongMax then LongMax else r
  }

  /** The `(int)` cast of a `long`: its low 32 bits, read as a two's-complement number. */
  function IntOfLong(n: int): (m: int)
    ensures IntMin <= m <= IntMax
    ensures (n - m) % 0x1_0000_0000 == 0
    ensures IntMin <= n <= IntMax ==> m == n
  {
    var low := n % 0x1_0000_0000;
    if low > IntMax then low - 0x1_0000_0000 else low
  }

  /**
   * `(int) Math.round(x)`: the nearest integer, halves rounded up, for every `x`
   * within the range of an `int`; beyond it, the clamped `long` cut to 32 bits.
   */
  function Round(x: real): (n: int)
    ensures IntMin <= n <= IntMax
    ensures IntMin as real - 0.5 <= x < IntMax as real + 0.5 ==> x - 0.5 < n as real <= x + 0.5
  {
    IntOfLong(MathRound(x))
  }

  /**
   * The unknown marker `-1e308` of a label column rounds to `Long.MIN_VALUE`,
   * whose low 32 bits are 0: it is read as label 0. A label of `2^31` wraps to
   * the negative `-2^31`.
   */
  lemma RoundBeyondInt()
    ensures MathRound(-1e308) == LongMin && Round(-1e308) == 0
    ensures Round(0x8000_0000 as real) == IntMin
  {
    assert (-1e308 + 0.5).Floor < LongMin;
    assert MathRound(0x8000_0000 as real) == 0x8000_0000;
  }

  /** `i + 1` in Java `int` arithmetic: `Integer.MAX_VALUE + 1` wraps to `Integer.MIN_VALUE`. */
  lemma NextInt(i: nat)
    requires i <= IntMax
    ensures i < IntMax ==> IntOfLong(i + 1) == i + 1
    ensures i == IntMax ==> IntOfLong(i + 1) == IntMin
  {
  }

  /** Labels that are `int`s have an `int` largest label. */
  lemma MaxLabelInInt(labels: seq<int>)
    requires forall i :: 0 <= i < |labels| ==> labels[i] <= IntMax
    ensures MaxLabel(labels) <= IntMax && (MaxLabel(labels) == IntMax ==> |labels| > 0)
  {
  }

  /** The rounded first entry of every row: the class labels of a one-column table. */
  function Labels(g: seq<seq<real>>): (labels: seq<int>)
    requires forall i :: 0 <= i < |g| ==> |g[i]| >= 1
    ensures |labels| == |g| && forall i :: 0 <= i < |g| ==> labels[i] == Round(g[i][0])
  {
    seq(|g|, i requires 0 <= i < |g| => Round(g[i][0]))
  }

  /** The largest label, or 0 when every label is smaller: the running maximum from 0. */
  function MaxLabel(labels: seq<int>): (m: nat)
    ensures forall i :: 0 <= i < |labels| ==> labels[i] <= m
    ensures m == 0 || exists i :: 0 <= i < |labels| && labels[i] == m
  {
    if |labels| == 0 then 0
    else if labels[|labels| - 1] > MaxLabel(labels[..|labels| - 1]) then labels[|labels| - 1]
    else MaxLabel(labels[..|labels| - 1])
  }

  /** Row `i` has a single 1 in column `labels[i]` and 0 elsewhere. */
  function OneHot(labels: seq<int>, width: nat): (g: seq<seq<real>>)
    ensures IsRect(g, |labels|, width)
    ensures forall i, j :: 0 <= i < |labels| && 0 <= j < width ==> g[i][j] == if j == labels[i] then 1.0 else 0.0
  {
    seq(|labels|, i requires 0 <= i < |labels| => seq(width, j requires 0 <= j < width => if j == labels[i] then 1.0 else 0.0))
  }

  /** The one-hot encoding of the labels: as many columns as the largest label plus one. */
  function OneHotOf(labels: seq<int>): seq<seq<real>>
  {
    OneHot(labels, MaxLabel(labels) + 1)
  }

  lemma {:induction false} OneHotOfWidth(labels: seq<int>, m: nat)
    requires m == MaxLabel(labels)
    ensures OneHotOf(labels) == OneHot(labels, m + 1)
  {
  }

  /** A row with one 1 and zeros elsewhere sums to 1. */
  lemma {:induction false} SumUnit(u: seq<real>, k: nat)
    requires k < |u| && forall i :: 0 <= i < |u| ==> u[i] == if i == k then 1.0 else 0.0
    ensures Sum(u) == 1.0
  {
    var n := |u| - 1;
    if n == k {
      SumZero(u[..n]);
    } else {
      SumUnit(u[..n], k);
    }
  }

  lemma {:induction false} SumZero(z: seq<real>)
    requires forall i :: 0 <= i < |z| ==> z[i] == 0.0
    ensures Sum(z) == 0.0
  {
    if |z| > 0 {
      SumZero(z[..|z| - 1]);
    }
  }

  /** Every row of a one-hot table whose labels fit its width holds exactly one unit of weight. */
  lemma OneHotRowSum(labels: seq<int>, width: nat, i: nat)
    requires i < |labels| && 0 <= labels[i] < width
    ensures Sum(OneHot(labels, width)[i]) == 1.0
  {
    SumUnit(OneHot(labels, width)[i], labels[i]);
  }

  /** The label of a one-hot row is the column that holds its 1. */
  lemma OneHotDecodes(labels: seq<int>, width: nat, i: nat, j: nat)
    requires i < |labels| && 0 <= labels[i] < width && j < width
    ensures OneHot(labels, width)[i][j] == 1.0 <==> j == labels[i]
  {
  }

  /** `n` successive draws from `source`, starting with draw number `first`. */
  function Supplied(source: nat -> real, first: nat, n: nat): (s: seq<real>)
    ensures |s| == n && forall k :: 0 <= k < n ==> s[k] == source(first + k)
  {
    seq(n, k requires 0 <= k < n => source(first + k))
  }

  /** Rows filled from successive draws flatten to the draws in order. */
  lemma {:induction false} FlattenSupplied(g: seq<seq<real>>, cols: nat, source: nat -> real, first: nat)
    requires IsRect(g, |g|, cols)
    requires forall i :: 0 <= i < |g| ==> g[i] == Supplied(source, first + i * cols, cols)
    ensures Flatten(g) == Supplied(source, first, |g| * cols)
  {
    if |g| > 0 {
      var n := |g| - 1;
      FlattenSupplied(g[..n], cols, source, first);
      assert (n + 1) * cols == n * cols + cols;
      var whole := Supplied(source, first, |g| * cols);
      assert whole == Supplied(source, first, n * cols) + Supplied(source, first + n * cols, cols);
    }
  }

  /** Pasting `size` whole rows from `before` into a zero table of that height gives exactly those rows. */
  lemma FoldRows(g: seq<seq<real>>, rows: nat, cols: nat, before: nat, size: nat)
    requires IsRect(g, rows, cols) && before + size <= rows
    ensures PasteBlock(Zeros(size, cols), g, size, cols, cols, 0, 0, before, 0, size, cols) == g[before..before + size]
  {
    PasteFullRows(Zeros(size, cols), g, size, cols, 0, before, size);
    assert Zeros(size, cols)[..0] == [] && Zeros(size, cols)[size..] == [];
  }

  /** Pasting the first `before` rows into a zero table keeps its remaining zero rows. */
  lemma RowsBeforeFold(g: seq<seq<real>>, rows: nat, cols: nat, n: nat, before: nat)
    requires IsRect(g, rows, cols) && before <= n && before <= rows
    ensures PasteBlock(Zeros(n, cols), g, n, cols, cols, 0, 0, 0, 0, before, cols) == g[..before] + Zeros(n, cols)[before..]
  {
    PasteFullRows(Zeros(n, cols), g, n, cols, 0, 0, before);
    assert Zeros(n, cols)[..0] == [] && g[0..before] == g[..before];
  }

  /** Pasting the rows after a fold behind the rows before it leaves out just the fold. */
  lemma RowsAfterFold(g: seq<seq<real>>, rows: nat, cols: nat, before: nat, size: nat, h: seq<seq<real>>, after: seq<seq<real>>)
    requires IsRect(g, rows, cols) && before + size <= rows
    requires h == g[..before] + Zeros(rows - size, cols)[before..]
    requires after == PasteBlock(h, g, rows - size, cols, cols, before, 0, before + size, 0, rows - size - before, cols)
    ensures after == g[..before] + g[before + size..]
  {
    var n := rows - size;
    PasteFullRows(h, g, n, cols, before, before + size, n - before);
    assert h[..before] == g[..before] && h[n..] == [];
    assert g[before + size..before + size + (n - before)] == g[before + size..];
  }
}
