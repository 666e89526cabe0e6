// The root package's Vector: a window (vals, start, len) over a backing
// array that may be shared with other windows.
module Vectors {
  import opened Wrappers
  import opened Numeric

  // The messages of the exceptions the vector code throws.
  const SizeMismatch := "mismatching sizes"
  const OutsideBounds := "startIndex is outside of the Vector bounds"

  class Vector {
    /** The backing array; `nullBacked` marks the Java `null` of `new Vector(0)`. */
    const vals: array<real>
    const nullBacked: bool
    const start: nat
    const len: nat

    ghost predicate Valid()
    {
      start + len <= vals.Length && (nullBacked ==> vals.Length == 0)
    }

    /** The elements visible through this window. */
    function Elements(): (s: seq<real>)
      reads vals
      requires Valid()
      ensures |s| == len
    {
      vals[start..start + len]
    }

    /** A window over the whole backing array shows all of it. */
    lemma WholeWindow()
      requires Valid() && start == 0 && len == vals.Length
      ensures Elements() == vals[..]
    {
    }

    /** `new Vector(size)`: a fresh zero buffer (no array at all for size 0). */
    constructor Make(size: nat)
      ensures Valid() && fresh(vals) && start == 0 && len == size && vals.Length == size
      ensures nullBacked <==> size == 0
      ensures Elements() == Constant(size, 0.0)
    {
      vals := new real[size](_ => 0.0);
      nullBacked := size == 0;
      start := 0;
      len := size;
    }

    /** `new Vector(double[])`: wraps the caller's array without copying. */
    constructor Wrap(data: array<real>)
      ensures Valid() && vals == data && start == 0 && len == data.Length && !nullBacked
    {
      vals := data;
      nullBacked := false;
      start := 0;
      len := data.Length;
    }

    /** The view constructor: not a copy, it shares `v`'s backing array. */
    constructor View(v: Vector, begin: nat, length: nat)
      requires v.Valid() && v.start + begin + length <= v.vals.Length
      ensures Valid() && vals == v.vals && nullBacked == v.nullBacked
      ensures start == v.start + begin && len == length
      ensures forall i :: 0 <= i < length ==> Elements()[i] == v.vals[v.start + begin + i]
    {
      vals := v.vals;
      nullBacked := v.nullBacked;
      start := v.start + begin;
      len := length;
    }

    function Get(index: nat): (r: real)
      reads vals
      requires Valid() && index < len
      ensures r == vals[start + index]
    {
      vals[start + index]
    }

    method Set(index: nat, value: real)
      requires Valid() && index < len
      modifies vals
      ensures vals[..] == old(vals[..])[start + index := value]
      ensures Elements() == old(Elements())[index := value]
    {
      vals[start + index] := value;
    }

    /** `Vector.copy`: a fresh buffer with equal elements; it throws for an empty vector. */
    static method Copy(other: Vector) returns (r: Result<Vector>)
      requires other.Valid()
      ensures r.Ok? <==> other.len > 0
      ensures r.Ok? ==> fresh(r.value) && fresh(r.value.vals) && r.value.Valid()
      ensures r.Ok? ==> r.value.Elements() == other.Elements() && r.value.start == 0
      ensures r.Err? ==> r.error == IllegalArgument(OutsideBounds)
    {
      var newVector := new Vector.Make(other.len);
      var status := newVector.SetFrom(0, other);
      if status.Fail? {
        return Err(status.error);
      }
      assert newVector.Elements() == other.Elements();
      r := Ok(newVector);
    }

    method Fill(value: real)
      requires Valid()
      modifies vals
      ensures vals[..] == Overwrite(old(vals[..]), start, Constant(len, value))
      ensures Elements() == Constant(len, value)
    {
      var i := 0;
      while i < len
        invariant 0 <= i <= len
        invariant forall k :: 0 <= k < vals.Length ==>
          vals[k] == if start <= k < start + i then value else old(vals[k])
      {
        vals[start + i] := value;
        i := i + 1;
      }
    }

    method SquaredMagnitude() returns (d: real)
      requires Valid()
      ensures d == Dot(Elements(), Elements())
    {
      d := 0.0;
      var i := 0;
      while i < len
        invariant 0 <= i <= len
        invariant d == Dot(Elements()[..i], Elements()[..i])
      {
        assert Elements()[..i + 1][..i] == Elements()[..i];
        d := d + vals[start + i] * vals[start + i];
        i := i + 1;
      }
      assert Elements()[..len] == Elements();
    }

    /**
     * `this[i] += that[i]`; throws before writing anything when the sizes differ.
     * Over another array it is the elementwise sum; over this vector's own array
     * it is the left-to-right loop `AddedInPlace`, which reads back what it wrote
     * when `that` starts before this window and overlaps it.
     */
    method Add(that: Vector) returns (status: Outcome)
      requires Valid() && that.Valid()
      modifies vals
      ensures status.Fail? <==> that.len != len
      ensures status.Fail? ==> status.error == IllegalArgument(SizeMismatch) && vals[..] == old(vals[..])
      ensures status.Pass? && that.vals != vals ==>
        vals[..] == Overwrite(old(vals[..]), start, Plus(old(Elements()), old(that.Elements())))
      ensures status.Pass? && that.vals == vals ==> vals[..] == AddedInPlace(old(vals[..]), start, that.start, 1.0, len)
    {
      if that.len != len {
        return Fail(IllegalArgument(SizeMismatch));
      }
      if that.vals == vals {
        AddWithin(vals, start, that.start, 1.0, len);
        return Pass;
      }
      ghost var sum := Plus(Elements(), that.Elements());
      var i := 0;
      while i < len
        invariant 0 <= i <= len
        invariant forall k :: 0 <= k < vals.Length ==>
          vals[k] == if start <= k < start + i then sum[k - start] else old(vals[k])
      {
        vals[start + i] := vals[start + i] + that.Get(i);
        i := i + 1;
      }

      status := Pass;
    }

    /**
     * `set(startIndex, values)`: throws unless `0 <= startIndex < size`, then copies
     * as much of `values` as fits from `startIndex` on. From another array that is
     * the first `n` elements of `values`; from this vector's own array it is the
     * left-to-right loop `CopiedInPlace`.
     */
    method SetFrom(startIndex: int, values: Vector) returns (status: Outcome)
      requires Valid() && values.Valid()
      modifies vals
      ensures status.Fail? <==> startIndex < 0 || startIndex >= len
      ensures status.Fail? ==> status.error == IllegalArgument(OutsideBounds)
      ensures status.Fail? ==> vals[..] == old(vals[..])
      ensures status.Pass? && values.vals != vals ==>
        var n := if len - startIndex < values.len then len - startIndex else values.len;
        vals[..] == Overwrite(old(vals[..]), start + startIndex, old(values.Elements())[..n])
      ensures status.Pass? && values.vals == vals ==>
        var n := if len - startIndex < values.len then len - startIndex else values.len;
        vals[..] == CopiedInPlace(old(vals[..]), start + startIndex, values.start, n)
    {
      if startIndex < 0 || startIndex >= len {
        return Fail(IllegalArgument(OutsideBounds));
      }
      ghost var w := values.Elements();
      var i := startIndex;
      while i < len && i - startIndex < values.len
        invariant startIndex <= i <= len && i - startIndex <= values.len
        invariant values.vals != vals ==> forall k :: 0 <= k < vals.Length ==>
          vals[k] == if start + startIndex <= k < start + i then w[k - start - startIndex] else old(vals[k])
        invariant values.vals == vals ==>
          vals[..] == CopiedInPlace(old(vals[..]), start + startIndex, values.start, i - startIndex)
      {
        vals[start + i] := values.Get(i - startIndex);
        i := i + 1;
      }
      status := Pass;
    }

    method Scale(scalar: real)
      requires Valid()
      modifies vals
      ensures vals[..] == Overwrite(old(vals[..]), start, Scaled(old(Elements()), scalar))
    {
      ghost var scaled := Scaled(Elements(), scalar);
      var i := 0;
      while i < len
        invariant 0 <= i <= len
        invariant forall k :: 0 <= k < vals.Length ==>
          vals[k] == if start <= k < start + i then scaled[k - start] else old(vals[k])
      {
        vals[start + i] := vals[start + i] * scalar;
        i := i + 1;
      }
    }

    /**
     * `this[i] += scalar * that[i]`; throws before writing anything when the
     * sizes differ. Over this vector's own array it is the loop `AddedInPlace`.
     */
    method AddScaled(scalar: real, that: Vector) returns (status: Outcome)
      requires Valid() && that.Valid()
      modifies vals
      ensures status.Fail? <==> that.len != len
      ensures status.Fail? ==> status.error == IllegalArgument(SizeMismatch) && vals[..] == old(vals[..])
      ensures status.Pass? && that.vals != vals ==>
        vals[..] == Overwrite(old(vals[..]), start, PlusScaled(old(Elements()), scalar, old(that.Elements())))
      ensures status.Pass? && that.vals == vals ==> vals[..] == AddedInPlace(old(vals[..]), start, that.start, scalar, len)
    {
      if that.len != len {
        return Fail(IllegalArgument(SizeMismatch));
      }
      if that.vals == vals {
        AddWithin(vals, start, that.start, scalar, len);
        return Pass;
      }
      ghost var sum := PlusScaled(Elements(), scalar, that.Elements());
      var i := 0;
      while i < len
        invariant 0 <= i <= len
        invariant forall k :: 0 <= k < vals.Length ==>
          vals[k] == if start <= k < start + i then sum[k - start] else old(vals[k])
      {
        vals[start + i] := vals[start + i] + scalar * that.Get(i);
        i := i + 1;
      }
      status := Pass;
    }

    method DotProduct(that: Vector) returns (r: Result<real>)
      requires Valid() && that.Valid()
      ensures r.Err? <==> that.len != len
      ensures r.Err? ==> r.error == IllegalArgument(SizeMismatch)
      ensures r.Ok? ==> r.value == Dot(Elements(), that.Elements())
    {
      if that.len != len {
        return Err(IllegalArgument(SizeMismatch));
      }
      var d := 0.0;
      var i := 0;
      while i < len
        invariant 0 <= i <= len
        invariant d == Dot(Elements()[..i], that.Elements()[..i])
      {
        assert Elements()[..i + 1][..i] == Elements()[..i];
        assert that.Elements()[..i + 1][..i] == that.Elements()[..i];
        d := d + Get(i) * that.Get(i);
        i := i + 1;
      }
      assert Elements()[..len] == Elements() && that.Elements()[..len] == that.Elements();
      r := Ok(d);
    }

    method SquaredDistance(that: Vector) returns (r: Result<real>)
      requires Valid() && that.Valid()
      ensures r.Err? <==> that.len != len
      ensures r.Err? ==> r.error == IllegalArgument(SizeMismatch)
      ensures r.Ok? ==> r.value == SquaredDist(Elements(), that.Elements()) && r.value >= 0.0
    {
      if that.len != len {
        return Err(IllegalArgument(SizeMismatch));
      }
      var d := 0.0;
      var i := 0;
      while i < len
        invariant 0 <= i <= len
        invariant d == SquaredDist(Elements()[..i], that.Elements()[..i])
      {
        assert Elements()[..i + 1][..i] == Elements()[..i];
        assert that.Elements()[..i + 1][..i] == that.Elements()[..i];
        var t := Get(i) - that.Get(i);
        d := d + t * t;
        i := i + 1;
      }
      assert Elements()[..len] == Elements() && that.Elements()[..len] == that.Elements();
      SquaredDistNonNegative(Elements(), that.Elements());
      r := Ok(d);
    }

    /** Sums the WHOLE backing array, not only the window; throws on a null buffer. */
    method Reduce() returns (r: Result<real>)
      requires Valid()
      ensures r.Err? <==> nullBacked
      ensures r.Err? ==> r.error == NullPointer
      ensures r.Ok? ==> r.value == Sum(vals[..])
    {
      if nullBacked {
        return Err(NullPointer);
      }
      var sum := 0.0;
      var i := 0;
      while i < vals.Length
        invariant 0 <= i <= vals.Length
        invariant sum == Sum(vals[..i])
      {
        assert vals[..i + 1][..i] == vals[..i];
        sum := sum + vals[i];
        i := i + 1;
      }
      assert vals[..vals.Length] == vals[..];
      r := Ok(sum);
    }

    /** A fresh array holding the window's elements; throws on a null buffer. */
    method ToDoubleArray() returns (r: Result<array<real>>)
      requires Valid()
      ensures r.Err? <==> nullBacked
      ensures r.Err? ==> r.error == NullPointer
      ensures r.Ok? ==> fresh(r.value) && r.value[..] == Elements()
    {
      if nullBacked {
        return Err(NullPointer);
      }
      var a := new real[len](i requires 0 <= i < len reads vals => vals[start + i]);
      r := Ok(a);
    }

    /**
     * `Arrays.equals` on the two backing arrays: the windows play no part, so a
     * view equals the vector it was taken from whatever its start and length.
     */
    predicate Equals(other: Vector): (b: bool)
      reads vals, other.vals
      ensures nullBacked || other.nullBacked ==> (b <==> nullBacked && other.nullBacked)
      ensures !nullBacked && !other.nullBacked ==>
        (b <==> vals.Length == other.vals.Length && forall i :: 0 <= i < vals.Length ==> vals[i] == other.vals[i])
    {
      if nullBacked || other.nullBacked then nullBacked == other.nullBacked
      else vals[..] == other.vals[..]
    }
  }

  /**
   * The loop `a[dst + i] += scale * a[src + i]`, for `i` from 0 up to `k - 1`,
   * on one backing array: each step reads the array as the earlier steps left it.
   */
  function AddedInPlace(a: seq<real>, dst: nat, src: nat, scale: real, k: nat): (r: seq<real>)
    requires dst + k <= |a| && src + k <= |a|
    ensures |r| == |a|
    ensures forall j :: 0 <= j < |a| && !(dst <= j < dst + k) ==> r[j] == a[j]
  {
    AddSteps(a, dst, src, scale, k)
  }

  /** The first `i` steps of that loop. */
  function AddSteps(a: seq<real>, dst: nat, src: nat, scale: real, i: nat): (r: seq<real>)
    requires dst + i <= |a| && src + i <= |a|
    ensures |r| == |a|
    ensures forall j :: 0 <= j < |a| && !(dst <= j < dst + i) ==> r[j] == a[j]
  {
    if i == 0 then a
    else
      var b := AddSteps(a, dst, src, scale, i - 1);
      b[dst + i - 1 := PlusTimes(b[dst + i - 1], scale, b[src + i - 1])]
  }

  /** `x + scale * y`: one step of `addScaled`. */
  function PlusTimes(x: real, scale: real, y: real): real
  {
    x + scale * y
  }

  /**
   * The loop of `add` and `addScaled` when both windows lie in the one array
   * `a`: it runs as `AddedInPlace` says, reading cells it may have written.
   */
  method AddWithin(a: array<real>, dst: nat, src: nat, scale: real, n: nat)
    requires dst + n <= a.Length && src + n <= a.Length
    modifies a
    ensures a[..] == AddedInPlace(old(a[..]), dst, src, scale, n)
  {
    var i := 0;
    while i < n
      invariant 0 <= i <= n
      invariant a[..] == AddedInPlace(old(a[..]), dst, src, scale, i)
    {
      a[dst + i] := a[dst + i] + scale * a[src + i];
      i := i + 1;
    }
  }

  /** The loop `a[dst + i] := a[src + i]`, for `i` from 0 up to `k - 1`, on one backing array. */
  function CopiedInPlace(a: seq<real>, dst: nat, src: nat, k: nat): (r: seq<real>)
    requires dst + k <= |a| && src + k <= |a|
    ensures |r| == |a|
    ensures forall j :: 0 <= j < |a| && !(dst <= j < dst + k) ==> r[j] == a[j]
  {
    CopySteps(a, dst, src, k)
  }

  /** The first `i` steps of that loop. */
  function CopySteps(a: seq<real>, dst: nat, src: nat, i: nat): (r: seq<real>)
    requires dst + i <= |a| && src + i <= |a|
    ensures |r| == |a|
    ensures forall j :: 0 <= j < |a| && !(dst <= j < dst + i) ==> r[j] == a[j]
  {
    if i == 0 then a
    else
      var b := CopySteps(a, dst, src, i - 1);
      b[dst + i - 1 := b[src + i - 1]]
  }

  /**
   * When no step reads a cell an earlier step wrote (the source does not start
   * before the destination, or ends before it), adding in place is the
   * elementwise `a + scale * b` over the destination.
   */
  lemma {:induction false} AddedInPlaceForward(a: seq<real>, dst: nat, src: nat, scale: real, k: nat)
    requires dst + k <= |a| && src + k <= |a|
    requires dst <= src || src + k <= dst
    ensures var r := AddedInPlace(a, dst, src, scale, k);
      forall j :: dst <= j < dst + k ==> r[j] == PlusTimes(a[j], scale, a[src + (j - dst)])
  {
    if k > 0 {
      AddedInPlaceForward(a, dst, src, scale, k - 1);
      var b := AddedInPlace(a, dst, src, scale, k - 1);
      var r := AddedInPlace(a, dst, src, scale, k);
      assert r == b[dst + k - 1 := PlusTimes(b[dst + k - 1], scale, b[src + k - 1])];
      assert b[src + k - 1] == a[src + k - 1] && b[dst + k - 1] == a[dst + k - 1];
      forall j | dst <= j < dst + k
        ensures r[j] == PlusTimes(a[j], scale, a[src + (j - dst)])
      {
        if j < dst + k - 1 {
          assert r[j] == b[j];
        }
      }
    }
  }

  /** Under the same condition, each written cell holds the old source cell. */
  lemma {:induction false} CopiedInPlaceReads(a: seq<real>, dst: nat, src: nat, k: nat)
    requires dst + k <= |a| && src + k <= |a|
    requires dst <= src || src + k <= dst
    ensures forall j :: dst <= j < dst + k ==> CopiedInPlace(a, dst, src, k)[j] == a[src + (j - dst)]
  {
    if k > 0 {
      CopiedInPlaceReads(a, dst, src, k - 1);
      var b := CopiedInPlace(a, dst, src, k - 1);
      assert b[src + k - 1] == a[src + k - 1];
    }
  }

  /** Copying in place is copying the source's old elements, under the same condition. */
  lemma CopiedInPlaceForward(a: seq<real>, dst: nat, src: nat, k: nat)
    requires dst + k <= |a| && src + k <= |a|
    requires dst <= src || src + k <= dst
    ensures CopiedInPlace(a, dst, src, k) == Overwrite(a, dst, a[src..src + k])
  {
    CopiedInPlaceReads(a, dst, src, k);
    var r := CopiedInPlace(a, dst, src, k);
    var e := Overwrite(a, dst, a[src..src + k]);
    forall j | 0 <= j < |a|
      ensures r[j] == e[j]
    {
    }
  }

  /** `i` reduced below `p` by taking away `p` as often as it fits. */
  function Cycle(i: nat, p: nat): (r: nat)
    requires p > 0
    ensures r < p && (i < p ==> r == i)
  {
    if i < p then i else Cycle(i - p, p)
  }

  /**
   * A source starting `p` cells before the destination and overlapping it is
   * smeared: the destination repeats the source's first `p` old elements.
   */
  lemma {:induction false} CopiedInPlaceRepeats(a: seq<real>, dst: nat, src: nat, p: nat, k: nat)
    requires dst + k <= |a| && src + p == dst && p > 0
    ensures forall j :: dst <= j < dst + k ==> CopiedInPlace(a, dst, src, k)[j] == a[src + Cycle(j - dst, p)]
  {
    if k > 0 {
      CopiedInPlaceRepeats(a, dst, src, p, k - 1);
      var b := CopiedInPlace(a, dst, src, k - 1);
      var r := CopiedInPlace(a, dst, src, k);
      assert r == b[dst + k - 1 := b[src + k - 1]];
      var last := dst + k - 1;
      if k - 1 < p {
        assert r[last] == b[src + k - 1] == a[src + k - 1];
      } else {
        assert Cycle(k - 1, p) == Cycle(k - 1 - p, p);
        assert r[last] == b[dst + (k - 1 - p)];
      }
      assert r[last] == a[src + Cycle(last - dst, p)];
      forall j | dst <= j < dst + k - 1
        ensures r[j] == a[src + Cycle(j - dst, p)]
      {
        assert r[j] == b[j];
      }
    }
  }

  /**
   * Adding cells 0..1 of `[1, 2, 3]` into cells 1..2 of the same array reads
   * the 3 just written: the loop leaves `[1, 3, 6]`, where the elementwise sum
   * of the two windows would give `[1, 3, 5]`.
   */
  lemma AddedInPlaceOverlap()
    ensures AddedInPlace([1.0, 2.0, 3.0], 1, 0, 1.0, 2) == [1.0, 3.0, 6.0]
    ensures Overwrite([1.0, 2.0, 3.0], 1, Plus([2.0, 3.0], [1.0, 2.0])) == [1.0, 3.0, 5.0]
  {
    assert AddedInPlace([1.0, 2.0, 3.0], 1, 0, 1.0, 1) == [1.0, 3.0, 3.0];
  }
}
