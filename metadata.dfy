// com.jace.math.Metadata: per-column names and a two-way enumeration map
// (attribute string <-> value index) for every column of a table.
module ColumnMetadata {
  import opened Wrappers
  import opened Formatting

  // The messages of the exceptions (the offending value that Java appends is not modelled).
  const OutOfBounds := "Index out of bounds: "
  const NoAttribute := "No attribute named: "
  const NoValue := "No value in enum"
  const Duplicate := "Duplicate attribute value: "

  /** The name `addColumn(valueCount)` gives a column: `"col_" + index`. */
  function ColumnName(i: nat): string
  {
    "col_" + Decimal(i)
  }

  /** The name `addColumn(valueCount)` gives value `i`: `"val_" + i`. */
  function ValueName(i: nat): string
  {
    "val_" + Decimal(i)
  }

  /**
   * The two maps of one column are inverse to each other and number the
   * attributes 0 .. size-1.
   */
  ghost predicate Enumerates(toValue: map<string, int>, toAttribute: map<int, string>)
  {
    (forall a :: a in toValue ==> 0 <= toValue[a] < |toValue| && toValue[a] in toAttribute && toAttribute[toValue[a]] == a) &&
    (forall v :: v in toAttribute ==> toAttribute[v] in toValue && toValue[toAttribute[v]] == v)
  }

  /** Numbering a new attribute with the current size keeps the two maps inverse. */
  lemma EnumeratesExtend(toValue: map<string, int>, toAttribute: map<int, string>, a: string)
    requires Enumerates(toValue, toAttribute) && a !in toValue
    ensures |toValue| !in toAttribute
    ensures Enumerates(toValue[a := |toValue|], toAttribute[|toValue| := a])
  {
    var n := |toValue|;
    var tv, ta := toValue[a := n], toAttribute[n := a];
    assert |tv| == n + 1;
    forall b | b in tv ensures 0 <= tv[b] < |tv| && tv[b] in ta && ta[tv[b]] == b {
      if b != a {
        assert tv[b] == toValue[b] < n;
      }
    }
    forall v | v in ta ensures ta[v] in tv && tv[ta[v]] == v {
      if v != n {
        assert ta[v] == toAttribute[v] && toAttribute[v] in toValue;
        assert ta[v] != a;
      }
    }
  }

  /** The two maps number exactly the strings of `values`, in order: `values[i]` <-> `i`. */
  ghost predicate Numbered(toValue: map<string, int>, toAttribute: map<int, string>, values: seq<string>)
  {
    Enumerates(toValue, toAttribute) && |toValue| == |values| &&
    (forall v :: v in toAttribute <==> 0 <= v < |values|) &&
    (forall i :: 0 <= i < |values| ==> toAttribute[i] == values[i])
  }

  /** Numbering one more, new, string keeps the maps a numbering of the longer list. */
  lemma NumberedExtend(toValue: map<string, int>, toAttribute: map<int, string>, values: seq<string>, a: string)
    requires Numbered(toValue, toAttribute, values) && a !in toValue
    ensures Numbered(toValue[a := |values|], toAttribute[|values| := a], values + [a])
  {
    EnumeratesExtend(toValue, toAttribute, a);
  }

  /** In a numbering, a string has a number exactly when it occurs in the list, and then it is its position. */
  lemma NumberedLookup(toValue: map<string, int>, toAttribute: map<int, string>, values: seq<string>, i: int)
    requires Numbered(toValue, toAttribute, values) && Distinct(values) && 0 <= i < |values|
    ensures values[i] in toValue && toValue[values[i]] == i
  {
    assert toAttribute[i] == values[i];
  }

  /** The value names `addColumn(valueCount)` creates: `val_0 .. val_<n-1>`. */
  function ValueNames(n: int): (s: seq<string>)
    ensures |s| == if n < 0 then 0 else n
    ensures forall i :: 0 <= i < |s| ==> s[i] == ValueName(i)
  {
    if n <= 0 then [] else ValueNames(n - 1) + [ValueName(n - 1)]
  }

  /** Value names are distinct. */
  lemma ValueNamesDistinct(n: int)
    ensures Distinct(ValueNames(n))
  {
    var s := ValueNames(n);
    forall i, j | 0 <= i < j < |s| ensures s[i] != s[j] {
      if s[i] == s[j] {
        Labelled("val_", i, j);
      }
    }
  }

  /** A numbering of no values is a pair of empty maps. */
  lemma NumberedNothing(toValue: map<string, int>, toAttribute: map<int, string>)
    requires Numbered(toValue, toAttribute, [])
    ensures toValue == map[] && toAttribute == map[]
  {
    assert forall v :: v !in toAttribute;
    assert toAttribute.Keys == {};
  }

  /** A snapshot of the three per-column lists. */
  datatype Columns = Columns(names: seq<string>, toValue: seq<map<string, int>>, toAttribute: seq<map<int, string>>)
  {
    predicate Wf()
    {
      |names| == |toValue| == |toAttribute|
    }
  }

  /** Column `i` of `r` is column `j` of `src`: name and both maps. */
  predicate ColumnFrom(r: Columns, i: nat, src: Columns, j: nat)
    requires r.Wf() && src.Wf() && i < |r.names| && j < |src.names|
  {
    r.names[i] == src.names[j] && r.toValue[i] == src.toValue[j] && r.toAttribute[i] == src.toAttribute[j]
  }

  /** Columns `a` and `b` exchanged: names and both maps. */
  function SwapColumnsOf(c: Columns, a: nat, b: nat): (r: Columns)
    requires c.Wf() && a < |c.names| && b < |c.names|
    ensures r.Wf() && |r.names| == |c.names|
    ensures ColumnFrom(r, a, c, b) && ColumnFrom(r, b, c, a)
    ensures forall i :: 0 <= i < |c.names| && i != a && i != b ==> ColumnFrom(r, i, c, i)
  {
    Columns(c.names[a := c.names[b]][b := c.names[a]],
            c.toValue[a := c.toValue[b]][b := c.toValue[a]],
            c.toAttribute[a := c.toAttribute[b]][b := c.toAttribute[a]])
  }

  /** `n` continuous columns named `col_0 .. col_<n-1>`, as `newColumns(n)` leaves them. */
  function ContinuousColumns(n: nat): (c: Columns)
    ensures c.Wf() && |c.names| == n
    ensures forall i :: 0 <= i < n ==> c.names[i] == ColumnName(i) && c.toValue[i] == map[] && c.toAttribute[i] == map[]
  {
    Columns(seq(n, i requires 0 <= i => ColumnName(i)), seq(n, _ => map[]), seq(n, _ => map[]))
  }

  /** A numbered column without values added after `n` continuous columns makes `n + 1` of them. */
  lemma NumberedColumnAdded(before: Columns, after: Columns, n: nat)
    requires before == ContinuousColumns(n) && after.Wf()
    requires after.names == before.names + [ColumnName(n)]
    requires |after.toValue| == n + 1 && after.toValue[..n] == before.toValue
    requires |after.toAttribute| == n + 1 && after.toAttribute[..n] == before.toAttribute
    requires Numbered(after.toValue[n], after.toAttribute[n], ValueNames(0))
    ensures after == ContinuousColumns(n + 1)
  {
    NumberedNothing(after.toValue[n], after.toAttribute[n]);
    assert after.toValue == after.toValue[..n] + [after.toValue[n]];
    assert after.toAttribute == after.toAttribute[..n] + [after.toAttribute[n]];
    ContinuousColumnsStep(n);
  }

  /** No continuous columns at all is the empty column list. */
  lemma ContinuousColumnsNone()
    ensures ContinuousColumns(0) == Columns([], [], [])
  {
  }

  /** One more continuous column after `n` of them. */
  lemma ContinuousColumnsStep(n: nat)
    ensures var c := ContinuousColumns(n);
      ContinuousColumns(n + 1) == Columns(c.names + [ColumnName(n)], c.toValue + [map[]], c.toAttribute + [map[]])
  {
  }

  /** The first two steps of `copyAttributeToMetadata`: the name and the attribute-to-value map of `source`. */
  function CopyNameAndValues(dst: Columns, src: Columns, source: nat, dest: nat): (r: Columns)
    requires dst.Wf() && src.Wf() && source < |src.names| && dest < |dst.names|
    ensures r.Wf() && |r.names| == |dst.names|
    ensures r.names[dest] == src.names[source] && r.toValue[dest] == src.toValue[source]
    ensures r.toAttribute == dst.toAttribute
    ensures forall i :: 0 <= i < |r.names| && i != dest ==> ColumnFrom(r, i, dst, i)
  {
    Columns(dst.names[dest := src.names[source]], dst.toValue[dest := src.toValue[source]], dst.toAttribute)
  }

  /**
   * All three steps of `copyAttributeToMetadata` as written: the
   * value-to-attribute map is taken from the source's column `dest`, not from
   * column `source`.
   */
  function CopyAsWritten(dst: Columns, src: Columns, source: nat, dest: nat): (r: Columns)
    requires dst.Wf() && src.Wf() && source < |src.names| && dest < |dst.names| && dest < |src.names|
    ensures r.Wf() && |r.names| == |dst.names|
    ensures r.names[dest] == src.names[source] && r.toValue[dest] == src.toValue[source]
    ensures r.toAttribute[dest] == src.toAttribute[dest]
  {
    var partial := CopyNameAndValues(dst, src, source, dest);
    Columns(partial.names, partial.toValue, partial.toAttribute[dest := src.toAttribute[dest]])
  }

  /**
   * The as-written copy pairs column `source`'s attribute-to-value map with
   * another column's value-to-attribute map: copying an enumerated column
   * over a continuous one of the same metadata leaves a column whose two maps
   * are not inverse.
   */
  lemma CopyAsWrittenBreaksEnumeration()
    ensures var src := Columns(["colour", "size"], [map["red" := 0], map[]], [map[0 := "red"], map[]]);
      Enumerates(src.toValue[0], src.toAttribute[0]) &&
      var r := CopyAsWritten(src, src, 0, 1);
      !Enumerates(r.toValue[1], r.toAttribute[1])
  {
    var src := Columns(["colour", "size"], [map["red" := 0], map[]], [map[0 := "red"], map[]]);
    var r := CopyAsWritten(src, src, 0, 1);
    assert "red" in r.toValue[1] && r.toValue[1]["red"] !in r.toAttribute[1];
  }

  /** The copy evidently intended: all of column `source` into column `dest`. */
  function CopyColumn(dst: Columns, src: Columns, source: nat, dest: nat): (r: Columns)
    requires dst.Wf() && src.Wf() && source < |src.names| && dest < |dst.names|
    ensures r.Wf() && |r.names| == |dst.names|
    ensures ColumnFrom(r, dest, src, source)
    ensures forall i :: 0 <= i < |r.names| && i != dest ==> ColumnFrom(r, i, dst, i)
  {
    Columns(dst.names[dest := src.names[source]], dst.toValue[dest := src.toValue[source]], dst.toAttribute[dest := src.toAttribute[source]])
  }

  /** An intended copy of an enumerated column is an enumerated column. */
  lemma CopyColumnKeepsEnumeration(dst: Columns, src: Columns, source: nat, dest: nat)
    requires dst.Wf() && src.Wf() && source < |src.names| && dest < |dst.names|
    requires Enumerates(src.toValue[source], src.toAttribute[source])
    ensures var r := CopyColumn(dst, src, source, dest); Enumerates(r.toValue[dest], r.toAttribute[dest])
  {
    var r := CopyColumn(dst, src, source, dest);
    assert r.toValue[dest] == src.toValue[source] && r.toAttribute[dest] == src.toAttribute[source];
  }

  /** `r` is `dst` with `src[from..from + k]` written over positions `at .. at + k`. */
  predicate Pasted<T(==)>(r: seq<T>, dst: seq<T>, src: seq<T>, from: nat, at: nat, k: nat)
  {
    from + k <= |src| && at + k <= |dst| && |r| == |dst| &&
    r[..at] == dst[..at] && r[at..at + k] == src[from..from + k] && r[at + k..] == dst[at + k..]
  }

  /** Pasting one more element after a pasted block. */
  lemma PastedStep<T>(r: seq<T>, dst: seq<T>, src: seq<T>, from: nat, at: nat, k: nat)
    requires Pasted(r, dst, src, from, at, k) && from + k < |src| && at + k < |dst|
    ensures Pasted(r[at + k := src[from + k]], dst, src, from, at, k + 1)
  {
    var r' := r[at + k := src[from + k]];
    assert r'[..at] == r[..at];
    assert r'[at..at + k + 1] == r[at..at + k] + [src[from + k]];
    assert src[from..from + k + 1] == src[from..from + k] + [src[from + k]];
    assert r'[at + k + 1..] == r[at + k + 1..];
    assert r[at + k + 1..] == r[at + k..][1..];
    assert dst[at + k + 1..] == dst[at + k..][1..];
  }

  /** `k` successive copies of column `colBegin + i` to column `destCol + i`, as `copyBlock` does. */
  function CopyColumns(dst: Columns, src: Columns, colBegin: nat, destCol: nat, k: nat): (r: Columns)
    requires dst.Wf() && src.Wf() && colBegin + k <= |src.names| && destCol + k <= |dst.names|
    ensures r.Wf() && |r.names| == |dst.names|
  {
    if k == 0 then dst
    else CopyColumn(CopyColumns(dst, src, colBegin, destCol, k - 1), src, colBegin + k - 1, destCol + k - 1)
  }

  /**
   * After `k` copies the columns `destCol .. destCol + k - 1` are the source's
   * `colBegin .. colBegin + k - 1` and every other column is the destination's.
   */
  lemma {:induction false} CopyColumnsPastes(dst: Columns, src: Columns, colBegin: nat, destCol: nat, k: nat)
    requires dst.Wf() && src.Wf() && colBegin + k <= |src.names| && destCol + k <= |dst.names|
    ensures var r := CopyColumns(dst, src, colBegin, destCol, k);
      Pasted(r.names, dst.names, src.names, colBegin, destCol, k) &&
      Pasted(r.toValue, dst.toValue, src.toValue, colBegin, destCol, k) &&
      Pasted(r.toAttribute, dst.toAttribute, src.toAttribute, colBegin, destCol, k)
  {
    if k > 0 {
      var j := k - 1;
      var prev := CopyColumns(dst, src, colBegin, destCol, j);
      var r := CopyColumns(dst, src, colBegin, destCol, k);
      assert r == CopyColumn(prev, src, colBegin + j, destCol + j);
      CopyColumnsPastes(dst, src, colBegin, destCol, j);
      PastedStep(prev.names, dst.names, src.names, colBegin, destCol, j);
      PastedStep(prev.toValue, dst.toValue, src.toValue, colBegin, destCol, j);
      PastedStep(prev.toAttribute, dst.toAttribute, src.toAttribute, colBegin, destCol, j);
      assert r.names == prev.names[destCol + j := src.names[colBegin + j]];
      assert r.toValue == prev.toValue[destCol + j := src.toValue[colBegin + j]];
      assert r.toAttribute == prev.toAttribute[destCol + j := src.toAttribute[colBegin + j]];
    }
  }

  /** One more column copied after `k` of them. */
  lemma CopyColumnsStep(dst: Columns, src: Columns, colBegin: nat, destCol: nat, k: nat)
    requires dst.Wf() && src.Wf() && colBegin + k < |src.names| && destCol + k < |dst.names|
    ensures CopyColumns(dst, src, colBegin, destCol, k + 1) == CopyColumn(CopyColumns(dst, src, colBegin, destCol, k), src, colBegin + k, destCol + k)
  {
  }

  /** The columns a run of copies leaves, and how the run ended. */
  datatype Copied = Copied(cols: Columns, status: Outcome)

  /**
   * `k` successive as-written calls copying column `colBegin + i` to column
   * `destCol + i`, as `copyBlock` makes them: the first call whose `destCol + i`
   * is no column of the source writes the name and the attribute-to-value map,
   * then throws reading the source's value-to-attribute maps, and no later call runs.
   */
  function CopyColumnsAsWritten(dst: Columns, src: Columns, colBegin: nat, destCol: nat, k: nat): (r: Copied)
    requires dst.Wf() && src.Wf() && colBegin + k <= |src.names| && destCol + k <= |dst.names|
    ensures r.cols.Wf() && |r.cols.names| == |dst.names|
    ensures r.status.Fail? <==> k > 0 && destCol + k > |src.names|
    ensures r.status.Fail? ==> r.status.error == IndexOutOfBounds
  {
    if k == 0 then Copied(dst, Pass)
    else
      var prev := CopyColumnsAsWritten(dst, src, colBegin, destCol, k - 1);
      if prev.status.Fail? then prev
      else if destCol + k - 1 >= |src.names| then
        Copied(CopyNameAndValues(prev.cols, src, colBegin + k - 1, destCol + k - 1), Fail(IndexOutOfBounds))
      else Copied(CopyAsWritten(prev.cols, src, colBegin + k - 1, destCol + k - 1), Pass)
  }

  /** One more call after a run that passed: the next copy, or the exception it throws. */
  lemma CopyColumnsAsWrittenNext(dst: Columns, src: Columns, colBegin: nat, destCol: nat, k: nat, prev: Columns)
    requires dst.Wf() && src.Wf() && colBegin + k < |src.names| && destCol + k < |dst.names|
    requires CopyColumnsAsWritten(dst, src, colBegin, destCol, k) == Copied(prev, Pass)
    ensures CopyColumnsAsWritten(dst, src, colBegin, destCol, k + 1)
         == if destCol + k >= |src.names| then Copied(CopyNameAndValues(prev, src, colBegin + k, destCol + k), Fail(IndexOutOfBounds))
            else Copied(CopyAsWritten(prev, src, colBegin + k, destCol + k), Pass)
  {
  }

  /**
   * When every column is copied to its own index (`colBegin == destCol`, as in
   * `duplicateRows` and the fold copies), the as-written copies are the intended ones.
   */
  lemma {:induction false} AlignedCopiesAsIntended(dst: Columns, src: Columns, col: nat, k: nat)
    requires dst.Wf() && src.Wf() && col + k <= |src.names| && col + k <= |dst.names|
    ensures CopyColumnsAsWritten(dst, src, col, col, k) == Copied(CopyColumns(dst, src, col, col, k), Pass)
  {
    if k > 0 {
      AlignedCopiesAsIntended(dst, src, col, k - 1);
      var prev := CopyColumns(dst, src, col, col, k - 1);
      assert CopyAsWritten(prev, src, col + k - 1, col + k - 1) == CopyColumn(prev, src, col + k - 1, col + k - 1);
    }
  }

  /**
   * Copying an enumerated column 0 over column 1 of a two-column table whose
   * column 1 is continuous, as `copyBlock(0, 1, that, 0, 0, rows, 1)` does: the
   * run as written passes but leaves column 1 with maps that are not inverse,
   * where the intended copy leaves it enumerated.
   */
  lemma CopyBlockAsWrittenBreaksEnumeration()
    ensures var src := Columns(["colour", "size"], [map["red" := 0], map[]], [map[0 := "red"], map[]]);
      var r := CopyColumnsAsWritten(src, src, 0, 1, 1);
      r.status.Pass? && !Enumerates(r.cols.toValue[1], r.cols.toAttribute[1]) &&
      var c := CopyColumns(src, src, 0, 1, 1);
      Enumerates(c.toValue[1], c.toAttribute[1])
  {
    var src := Columns(["colour", "size"], [map["red" := 0], map[]], [map[0 := "red"], map[]]);
    CopyAsWrittenBreaksEnumeration();
    assert CopyColumnsAsWritten(src, src, 0, 1, 1) == Copied(CopyAsWritten(src, src, 0, 1), Pass);
    CopyColumnKeepsEnumeration(src, src, 0, 1);
    assert CopyColumns(src, src, 0, 1, 1) == CopyColumn(src, src, 0, 1);
  }

  /** Copying every column, as written, into a table of the same width passes and reproduces the source. */
  lemma AlignedCopyAll(dst: Columns, src: Columns)
    requires dst.Wf() && src.Wf() && |dst.names| == |src.names|
    ensures CopyColumnsAsWritten(dst, src, 0, 0, |src.names|) == Copied(src, Pass)
  {
    AlignedCopiesAsIntended(dst, src, 0, |src.names|);
    CopyAllColumns(dst, src);
  }

  /** Copying every column of a table of the same width reproduces it. */
  lemma CopyAllColumns(dst: Columns, src: Columns)
    requires dst.Wf() && src.Wf() && |dst.names| == |src.names|
    ensures CopyColumns(dst, src, 0, 0, |src.names|) == src
  {
    var n := |src.names|;
    CopyPrefix(dst, src, n);
    SpliceWhole(src.names, dst.names);
    SpliceWhole(src.toValue, dst.toValue);
    SpliceWhole(src.toAttribute, dst.toAttribute);
  }

  /** After `k` copies from column 0 to column 0, the first `k` columns are the source's and the rest the destination's. */
  lemma {:induction false} CopyPrefix(dst: Columns, src: Columns, k: nat)
    requires dst.Wf() && src.Wf() && |dst.names| == |src.names| && k <= |src.names|
    ensures CopyColumns(dst, src, 0, 0, k)
         == Columns(Splice(src.names, dst.names, k), Splice(src.toValue, dst.toValue, k), Splice(src.toAttribute, dst.toAttribute, k))
  {
    if k > 0 {
      var j := k - 1;
      CopyPrefix(dst, src, j);
      SpliceStep(src.names, dst.names, j);
      SpliceStep(src.toValue, dst.toValue, j);
      SpliceStep(src.toAttribute, dst.toAttribute, j);
    }
  }

  /** The first `k` elements of `a` followed by the rest of `b`. */
  function Splice<T>(a: seq<T>, b: seq<T>, k: nat): (r: seq<T>)
    requires |a| == |b| && k <= |a|
    ensures |r| == |a|
  {
    a[..k] + b[k..]
  }

  lemma SpliceStep<T>(a: seq<T>, b: seq<T>, j: nat)
    requires |a| == |b| && j < |a|
    ensures Splice(a, b, j)[j := a[j]] == Splice(a, b, j + 1)
  {
    var u, v := Splice(a, b, j)[j := a[j]], Splice(a, b, j + 1);
    forall i | 0 <= i < |a| ensures u[i] == v[i] {
      if i < j {
        assert u[i] == a[..j][i];
      } else if i > j {
        assert u[i] == b[j..][i - j] && v[i] == b[j + 1..][i - j - 1];
      }
    }
  }

  lemma SpliceWhole<T>(a: seq<T>, b: seq<T>)
    requires |a| == |b|
    ensures Splice(a, b, |a|) == a
  {
    assert a[..|a|] == a;
  }

  /** The loop of `addColumn(valueCount)`: the two maps of `val_0 .. val_<valueCount-1>`, numbered both ways. */
  method NumberedValues(valueCount: int) returns (toValue: map<string, int>, toAttribute: map<int, string>)
    ensures Numbered(toValue, toAttribute, ValueNames(valueCount))
  {
    toValue, toAttribute := map[], map[];
    var i := 0;
    while i < valueCount
      invariant 0 <= i && (valueCount >= 0 ==> i <= valueCount) && (valueCount < 0 ==> i == 0)
      invariant Numbered(toValue, toAttribute, ValueNames(i))
    {
      var sVal := "val_" + Decimal(i);
      if sVal in toValue {
        var j := toValue[sVal];
        assert toAttribute[j] == ValueName(j);
        Labelled("val_", i, j);
      }
      NumberedExtend(toValue, toAttribute, ValueNames(i), sVal);
      toValue := toValue[sVal := i];
      toAttribute := toAttribute[i := sVal];
      i := i + 1;
    }
  }

  class Metadata {
    var fileName: string
    var attributeNames: seq<string>
    var attributeToValueMaps: seq<map<string, int>>
    var valueToAttributeMaps: seq<map<int, string>>

    ghost predicate Valid()
      reads this
    {
      |attributeNames| == |attributeToValueMaps| == |valueToAttributeMaps|
    }

    function Snapshot(): (c: Columns)
      reads this
      requires Valid()
      ensures c.Wf()
    {
      Columns(attributeNames, attributeToValueMaps, valueToAttributeMaps)
    }

    /** Column `column` exists and its two maps are inverse. */
    ghost predicate Enumerated(column: int)
      reads this
      requires Valid()
    {
      0 <= column < |attributeNames| && Enumerates(attributeToValueMaps[column], valueToAttributeMaps[column])
    }

    constructor ()
      ensures Valid() && fileName == "" && attributeNames == [] && attributeToValueMaps == [] && valueToAttributeMaps == []
    {
      fileName := "";
      attributeNames := [];
      attributeToValueMaps := [];
      valueToAttributeMaps := [];
    }

    constructor Named(fileName: string)
      ensures Valid() && this.fileName == fileName && attributeNames == [] && attributeToValueMaps == [] && valueToAttributeMaps == []
    {
      this.fileName := fileName;
      attributeNames := [];
      attributeToValueMaps := [];
      valueToAttributeMaps := [];
    }

    /**
     * `copy()` as written: the copy constructor calls `addAll` on its two map
     * lists before anything has created them, so every copy throws.
     */
    method CopyMetadataAsWritten() returns (r: Result<Metadata>)
      ensures r == Err(NullPointer)
    {
      r := Err(NullPointer);
    }

    /** `copy()` as evidently intended: a new object with the same file name and the same columns. */
    method CopyMetadata() returns (c: Metadata)
      requires Valid()
      ensures fresh(c) && c.Valid() && c.fileName == fileName && c.Snapshot() == Snapshot()
    {
      c := new Metadata.Named(fileName);
      c.attributeNames := attributeNames;
      c.attributeToValueMaps := attributeToValueMaps;
      c.valueToAttributeMaps := valueToAttributeMaps;
    }

    /** `clear`: no file name and no columns. */
    method Clear()
      modifies this
      ensures Valid() && fileName == "" && attributeNames == [] && attributeToValueMaps == [] && valueToAttributeMaps == []
    {
      fileName := "";
      attributeNames := [];
      attributeToValueMaps := [];
      valueToAttributeMaps := [];
    }

    /** `addColumn(name)`: a new last column with empty (continuous) enumeration maps. */
    method AddColumn(name: string)
      requires Valid()
      modifies this
      ensures Valid() && fileName == old(fileName)
      ensures attributeNames == old(attributeNames) + [name]
      ensures attributeToValueMaps == old(attributeToValueMaps) + [map[]]
      ensures valueToAttributeMaps == old(valueToAttributeMaps) + [map[]]
      ensures Enumerated(|attributeNames| - 1)
    {
      attributeNames := attributeNames + [name];
      attributeToValueMaps := attributeToValueMaps + [map[]];
      valueToAttributeMaps := valueToAttributeMaps + [map[]];
    }

    /**
     * `addColumn(valueCount)`: a new last column named `col_<index>` whose
     * values `val_0 .. val_<valueCount-1>` are numbered 0, 1, ... both ways.
     */
    method AddNumberedColumn(valueCount: int)
      requires Valid()
      modifies this
      ensures Valid() && fileName == old(fileName)
      ensures attributeNames == old(attributeNames) + [ColumnName(|old(attributeNames)|)]
      ensures |attributeToValueMaps| == |old(attributeToValueMaps)| + 1
      ensures attributeToValueMaps[..|attributeToValueMaps| - 1] == old(attributeToValueMaps)
      ensures |valueToAttributeMaps| == |old(valueToAttributeMaps)| + 1
      ensures valueToAttributeMaps[..|valueToAttributeMaps| - 1] == old(valueToAttributeMaps)
      ensures Numbered(attributeToValueMaps[|attributeNames| - 1], valueToAttributeMaps[|attributeNames| - 1], ValueNames(valueCount))
    {
      var name := "col_" + Decimal(|attributeNames|);
      var toValue, toAttribute := NumberedValues(valueCount);
      attributeNames := attributeNames + [name];
      attributeToValueMaps := attributeToValueMaps + [toValue];
      valueToAttributeMaps := valueToAttributeMaps + [toAttribute];
    }

    /**
     * `copyAttributeToMetadata` as written: copies the name and the
     * attribute-to-value map of column `source` into `other`'s column `dest`,
     * then the value-to-attribute map of this metadata's column `dest`. An
     * index outside a list fails at the step that reads or writes it.
     */
    method CopyAttributeAsWritten(other: Metadata, source: int, dest: int) returns (status: Outcome)
      requires Valid() && other.Valid()
      modifies other
      ensures other.Valid() && other.fileName == old(other.fileName)
      ensures status.Fail? <==> !(0 <= source < |old(attributeNames)| && 0 <= dest < |old(other.attributeNames)| && dest < |old(attributeNames)|)
      ensures status.Fail? ==> status.error == IndexOutOfBounds
      ensures !(0 <= source < |old(attributeNames)| && 0 <= dest < |old(other.attributeNames)|) ==> other.Snapshot() == old(other.Snapshot())
      ensures 0 <= source < |old(attributeNames)| && 0 <= dest < |old(other.attributeNames)| && dest >= |old(attributeNames)| ==>
        other.Snapshot() == CopyNameAndValues(old(other.Snapshot()), old(Snapshot()), source, dest)
      ensures status.Pass? ==> other.Snapshot() == CopyAsWritten(old(other.Snapshot()), old(Snapshot()), source, dest)
    {
      if source < 0 || source >= |attributeNames| || dest < 0 || dest >= |other.attributeNames| {
        return Fail(IndexOutOfBounds);
      }
      var name, toValue := attributeNames[source], attributeToValueMaps[source];
      other.attributeNames := other.attributeNames[dest := name];
      other.attributeToValueMaps := other.attributeToValueMaps[dest := toValue];
      if dest >= |valueToAttributeMaps| {
        return Fail(IndexOutOfBounds);
      }
      other.valueToAttributeMaps := other.valueToAttributeMaps[dest := valueToAttributeMaps[dest]];
      status := Pass;
    }

    /**
     * `copyAttributeToMetadata` as evidently intended: column `source` (name and
     * both maps) replaces `other`'s column `dest`; an index outside its list
     * fails before anything changes.
     */
    method CopyAttributeTo(other: Metadata, source: int, dest: int) returns (status: Outcome)
      requires Valid() && other.Valid()
      modifies other
      ensures other.Valid() && other.fileName == old(other.fileName)
      ensures status.Fail? <==> !(0 <= source < |old(attributeNames)| && 0 <= dest < |old(other.attributeNames)|)
      ensures status.Fail? ==> status.error == IndexOutOfBounds && other.Snapshot() == old(other.Snapshot())
      ensures status.Pass? ==> other.Snapshot() == CopyColumn(old(other.Snapshot()), old(Snapshot()), source, dest)
    {
      if source < 0 || source >= |attributeNames| || dest < 0 || dest >= |other.attributeNames| {
        return Fail(IndexOutOfBounds);
      }
      var name, toValue, toAttribute := attributeNames[source], attributeToValueMaps[source], valueToAttributeMaps[source];
      other.attributeNames := other.attributeNames[dest := name];
      other.attributeToValueMaps := other.attributeToValueMaps[dest := toValue];
      other.valueToAttributeMaps := other.valueToAttributeMaps[dest := toAttribute];
      status := Pass;
    }

    /** `swapColumns`: exchanges the names and both maps of columns `a` and `b`. */
    method SwapColumns(a: int, b: int) returns (status: Outcome)
      requires Valid()
      modifies this
      ensures Valid() && fileName == old(fileName)
      ensures status.Fail? <==> !(0 <= a < |old(attributeNames)| && 0 <= b < |old(attributeNames)|)
      ensures status.Fail? ==> status.error == IndexOutOfBounds && Snapshot() == old(Snapshot())
      ensures status.Pass? ==> Snapshot() == SwapColumnsOf(old(Snapshot()), a, b)
    {
      if a < 0 || a >= |attributeNames| || b < 0 || b >= |attributeNames| {
        return Fail(IndexOutOfBounds);
      }
      var nameTemp := attributeNames[a];
      attributeNames := attributeNames[a := attributeNames[b]][b := nameTemp];
      var toValueTemp := attributeToValueMaps[a];
      attributeToValueMaps := attributeToValueMaps[a := attributeToValueMaps[b]][b := toValueTemp];
      var toAttributeTemp := valueToAttributeMaps[a];
      valueToAttributeMaps := valueToAttributeMaps[a := valueToAttributeMaps[b]][b := toAttributeTemp];
      status := Pass;
    }

    /** `getValueForAttributeInColumn`: the number of `attribute` in `column`. */
    function ValueForAttribute(attribute: string, column: int): (r: Result<int>)
      reads this
      requires Valid()
      ensures r.Err? <==> !(0 <= column < |attributeNames|) || attribute !in attributeToValueMaps[column]
      ensures r.Err? && !(0 <= column < |attributeNames|) ==> r.error == IllegalArgument(OutOfBounds)
      ensures r.Err? && 0 <= column < |attributeNames| ==> r.error == IllegalArgument(NoAttribute)
      ensures r.Ok? ==> r.value == attributeToValueMaps[column][attribute]
      ensures r.Ok? && Enumerated(column) ==> 0 <= r.value < |attributeToValueMaps[column]|
    {
      if column < 0 || column >= |attributeToValueMaps| then Err(IllegalArgument(OutOfBounds))
      else if attribute !in attributeToValueMaps[column] then Err(IllegalArgument(NoAttribute))
      else Ok(attributeToValueMaps[column][attribute])
    }

    /** `getAttributeForValueInColumn`: the attribute numbered `value` in `column`. */
    function AttributeForValue(value: int, column: int): (r: Result<string>)
      reads this
      requires Valid()
      ensures r.Err? <==> !(0 <= column < |attributeNames|) || value !in valueToAttributeMaps[column]
      ensures r.Err? && !(0 <= column < |attributeNames|) ==> r.error == IllegalArgument(OutOfBounds)
      ensures r.Err? && 0 <= column < |attributeNames| ==> r.error == IllegalArgument(NoValue)
      ensures r.Ok? ==> r.value == valueToAttributeMaps[column][value]
    {
      if column < 0 || column >= |attributeToValueMaps| then Err(IllegalArgument(OutOfBounds))
      else if value !in valueToAttributeMaps[column] then Err(IllegalArgument(NoValue))
      else Ok(valueToAttributeMaps[column][value])
    }

    /** In an enumerated column, looking an attribute's number back up gives the attribute, and vice versa. */
    lemma LookupRoundTrip(column: int, attribute: string, value: int)
      requires Valid() && Enumerated(column)
      ensures ValueForAttribute(attribute, column).Ok? ==>
        AttributeForValue(ValueForAttribute(attribute, column).value, column) == Ok(attribute)
      ensures AttributeForValue(value, column).Ok? ==>
        ValueForAttribute(AttributeForValue(value, column).value, column) == Ok(value)
    {
    }

    /** `getEnumSizeForAttributeInColumn`: the size of the value-to-attribute map. */
    function EnumSize(column: int): (r: Result<nat>)
      reads this
      requires Valid()
      ensures r.Err? <==> !(0 <= column < |attributeNames|)
      ensures r.Err? ==> r.error == IllegalArgument(OutOfBounds)
      ensures r.Ok? ==> r.value == |valueToAttributeMaps[column]|
    {
      if column < 0 || column >= |attributeToValueMaps| then Err(IllegalArgument(OutOfBounds))
      else Ok(|valueToAttributeMaps[column]|)
    }

    /** `attributeIsContinuous`: the column has no enumerated values. */
    function AttributeIsContinuous(column: int): (r: Result<bool>)
      reads this
      requires Valid()
      ensures r.Err? <==> !(0 <= column < |attributeNames|)
      ensures r.Ok? ==> (r.value <==> valueToAttributeMaps[column] == map[])
    {
      match EnumSize(column)
      case Err(e) => Err(e)
      case Ok(n) => Ok(n == 0)
    }

    /**
     * `findOrCreateValueForAttributeInColumn`: the existing number of a known
     * attribute, or the next number (the map's size), recorded both ways.
     */
    method FindOrCreateValue(attribute: string, column: int) returns (r: Result<int>)
      requires Valid()
      modifies this
      ensures Valid() && fileName == old(fileName) && attributeNames == old(attributeNames)
      ensures r.Err? <==> !(0 <= column < |attributeNames|)
      ensures r.Err? ==> r.error == IllegalArgument(OutOfBounds) && Snapshot() == old(Snapshot())
      ensures r.Ok? && attribute in old(attributeToValueMaps[column]) ==>
        r.value == old(attributeToValueMaps[column][attribute]) && Snapshot() == old(Snapshot())
      ensures r.Ok? && attribute !in old(attributeToValueMaps[column]) ==>
        r.value == |old(attributeToValueMaps[column])| &&
        attributeToValueMaps == old(attributeToValueMaps)[column := old(attributeToValueMaps[column])[attribute := r.value]] &&
        valueToAttributeMaps == old(valueToAttributeMaps)[column := old(valueToAttributeMaps[column])[r.value := attribute]]
      ensures r.Ok? ==> ValueForAttribute(attribute, column) == Ok(r.value)
      ensures old(Enumerated(column)) ==> Enumerated(column)
    {
      if column < 0 || column >= |attributeToValueMaps| {
        return Err(IllegalArgument(OutOfBounds));
      }
      if attribute !in attributeToValueMaps[column] {
        var newValue := |attributeToValueMaps[column]|;
        if Enumerated(column) {
          EnumeratesExtend(attributeToValueMaps[column], valueToAttributeMaps[column], attribute);
        }
        attributeToValueMaps := attributeToValueMaps[column := attributeToValueMaps[column][attribute := newValue]];
        valueToAttributeMaps := valueToAttributeMaps[column := valueToAttributeMaps[column][newValue := attribute]];
        return Ok(newValue);
      } else {
        r := ValueForAttribute(attribute, column);
      }
    }

    /**
     * The enumeration part of `parseAttribute`, after the attribute name and
     * the brace-delimited values have been tokenized (`None` when the line has
     * no enumeration): appends a column whose values are numbered 0, 1, ... in
     * order, and fails on a repeated value, leaving the values before it.
     */
    method ParseAttribute(name: string, enumeration: Option<seq<string>>) returns (status: Outcome)
      requires Valid()
      modifies this
      ensures Valid() && fileName == old(fileName)
      ensures attributeNames == old(attributeNames) + [name]
      ensures attributeToValueMaps[..|old(attributeToValueMaps)|] == old(attributeToValueMaps)
      ensures valueToAttributeMaps[..|old(valueToAttributeMaps)|] == old(valueToAttributeMaps)
      ensures status.Fail? <==> enumeration.Some? && !Distinct(enumeration.value)
      ensures status.Fail? ==> status.error == Runtime(Duplicate)
      ensures enumeration.None? ==> attributeToValueMaps[|attributeNames| - 1] == map[] && valueToAttributeMaps[|attributeNames| - 1] == map[]
      ensures status.Pass? && enumeration.Some? ==>
        Numbered(attributeToValueMaps[|attributeNames| - 1], valueToAttributeMaps[|attributeNames| - 1], enumeration.value)
      ensures status.Fail? ==>
        exists k :: 0 <= k < |enumeration.value| && enumeration.value[k] in enumeration.value[..k] &&
          Numbered(attributeToValueMaps[|attributeNames| - 1], valueToAttributeMaps[|attributeNames| - 1], enumeration.value[..k])
    {
      var toValue: map<string, int> := map[];
      var toAttribute: map<int, string> := map[];
      status := Pass;
      if enumeration.Some? {
        var count;
        toValue, toAttribute, count := Enumerate(enumeration.value);
        if count < |enumeration.value| {
          status := Fail(Runtime(Duplicate));
        }
      }
      attributeNames := attributeNames + [name];
      attributeToValueMaps := attributeToValueMaps + [toValue];
      valueToAttributeMaps := valueToAttributeMaps + [toAttribute];
    }
  }

  /**
   * The loop of `parseAttribute` that numbers the values of an enumeration in
   * order; it stops at the first value seen before, after `count` values.
   */
  method Enumerate(values: seq<string>) returns (toValue: map<string, int>, toAttribute: map<int, string>, count: nat)
    ensures count <= |values| && Distinct(values[..count])
    ensures count < |values| <==> !Distinct(values)
    ensures count < |values| ==> values[count] in values[..count]
    ensures Numbered(toValue, toAttribute, values[..count])
  {
    toValue, toAttribute, count := map[], map[], 0;
    while count < |values|
      invariant count <= |values| && Distinct(values[..count])
      invariant Numbered(toValue, toAttribute, values[..count])
    {
      var value := values[count];
      if value in toValue {
        assert values[toValue[value]] == value;
        return;
      }
      assert values[..count + 1] == values[..count] + [value];
      NumberedExtend(toValue, toAttribute, values[..count], value);
      toValue := toValue[value := count];
      toAttribute := toAttribute[count := value];
      count := count + 1;
    }
    assert values[..count] == values;
  }

  /** No value occurs twice. */
  predicate Distinct(values: seq<string>)
  {
    forall i, j :: 0 <= i < j < |values| ==> values[i] != values[j]
  }
}
