// com.jace.util.Strings: a list of strings joined with a separator, and the
// overloads that turn arrays, characters and vectors into that form.
module Strings {
  import opened Wrappers
  import opened Vectors

  /** Every entry followed by the separator, in order. */
  function Terminated(items: seq<string>, sep: string): string
  {
    if |items| == 0 then "" else Terminated(items[..|items| - 1], sep) + items[|items| - 1] + sep
  }

  /** The entries in order with the separator between consecutive ones. */
  function Joined(items: seq<string>, sep: string): string
    requires |items| > 0
  {
    Terminated(items[..|items| - 1], sep) + items[|items| - 1]
  }

  /** The summed length of the entries. */
  function TotalLength(items: seq<string>): nat
  {
    if |items| == 0 then 0 else TotalLength(items[..|items| - 1]) + |items[|items| - 1]|
  }

  /** Each value rendered by `show`. */
  function Shown(values: seq<real>, show: real -> string): (texts: seq<string>)
    ensures |texts| == |values| && forall i :: 0 <= i < |values| ==> texts[i] == show(values[i])
  {
    seq(|values|, i requires 0 <= i < |values| => show(values[i]))
  }

  lemma {:induction false} TerminatedLength(items: seq<string>, sep: string)
    ensures |Terminated(items, sep)| == TotalLength(items) + |items| * |sep|
  {
    if |items| > 0 {
      var n := |items| - 1;
      TerminatedLength(items[..n], sep);
      assert (n + 1) * |sep| == n * |sep| + |sep|;
    }
  }

  /** The joined string is as long as the entries plus one separator fewer than there are entries. */
  lemma JoinedLength(items: seq<string>, sep: string)
    requires |items| > 0
    ensures |Joined(items, sep)| == TotalLength(items) + (|items| - 1) * |sep|
  {
    TerminatedLength(items[..|items| - 1], sep);
  }

  /** Terminating two lists one after the other is terminating their concatenation. */
  lemma {:induction false} TerminatedConcat(a: seq<string>, b: seq<string>, sep: string)
    ensures Terminated(a + b, sep) == Terminated(a, sep) + Terminated(b, sep)
  {
    if |b| > 0 {
      var n := |b| - 1;
      assert (a + b)[..|a + b| - 1] == a + b[..n];
      TerminatedConcat(a, b[..n], sep);
    } else {
      assert a + b == a;
    }
  }

  /** A single entry is joined without any separator. */
  lemma JoinedSingle(e: string, sep: string)
    ensures Joined([e], sep) == e
  {
    assert [e][..0] == [];
  }

  /**
   * Cutting the list after entry `k` cuts the joined string at the separator
   * that follows entry `k`.
   */
  lemma JoinedSplit(items: seq<string>, sep: string, k: nat)
    requires k + 1 < |items|
    ensures Joined(items, sep) == Joined(items[..k + 1], sep) + sep + Joined(items[k + 1..], sep)
  {
    var n := |items| - 1;
    var front, back := items[..k + 1], items[k + 1..];
    assert items[..n] == front + back[..|back| - 1];
    TerminatedConcat(front, back[..|back| - 1], sep);
    assert Terminated(front, sep) == Terminated(front[..k], sep) + front[k] + sep;
    assert back[|back| - 1] == items[n];
  }

  /**
   * `join(List, String)`: entries and separators appended in turn, then the last
   * entry; an empty list fails reading entry -1.
   */
  method Join(items: seq<string>, sep: string) returns (r: Result<string>)
    ensures r.Err? <==> |items| == 0
    ensures r.Err? ==> r.error == IndexOutOfBounds
    ensures r.Ok? ==> r.value == Joined(items, sep)
  {
    var builder := "";
    var i := 0;
    while i < |items| - 1
      invariant 0 <= i <= if |items| == 0 then 0 else |items| - 1
      invariant builder == Terminated(items[..i], sep)
    {
      assert items[..i + 1][..i] == items[..i];
      builder := builder + items[i] + sep;
      i := i + 1;
    }
    if |items| == 0 {
      return Err(IndexOutOfBounds);
    }
    builder := builder + items[|items| - 1];
    return Ok(builder);
  }

  /** `join(T[], String)`: the array's entries as a list. */
  method JoinArray(items: array<string>, sep: string) returns (r: Result<string>)
    ensures r.Err? <==> items.Length == 0
    ensures r.Err? ==> r.error == IndexOutOfBounds
    ensures r.Ok? ==> r.value == Joined(items[..], sep)
  {
    r := Join(items[..], sep);
  }

  /** `join(List, char)`: the character as a one-character separator. */
  method JoinChar(items: seq<string>, sep: char) returns (r: Result<string>)
    ensures r.Err? <==> |items| == 0
    ensures r.Err? ==> r.error == IndexOutOfBounds
    ensures r.Ok? ==> r.value == Joined(items, [sep])
  {
    r := Join(items, [sep]);
  }

  /** `join(T[], char)`. */
  method JoinArrayChar(items: array<string>, sep: char) returns (r: Result<string>)
    ensures r.Err? <==> items.Length == 0
    ensures r.Err? ==> r.error == IndexOutOfBounds
    ensures r.Ok? ==> r.value == Joined(items[..], [sep])
  {
    r := JoinArray(items, [sep]);
  }

  /**
   * `join(Vector, String)`: the vector's values, each rendered by `show` (Java's
   * rendering of a boxed double), joined; a vector without backing storage fails
   * copying its values out, an empty one fails like an empty list.
   */
  method JoinVector(vector: Vector, sep: string, show: real -> string) returns (r: Result<string>)
    requires vector.Valid()
    ensures r.Err? <==> vector.nullBacked || vector.len == 0
    ensures r.Err? && vector.nullBacked ==> r.error == NullPointer
    ensures r.Err? && !vector.nullBacked ==> r.error == IndexOutOfBounds
    ensures r.Ok? ==> r.value == Joined(Shown(vector.Elements(), show), sep)
  {
    var values := vector.ToDoubleArray();
    if values.Err? {
      return Err(values.error);
    }
    var texts := Shown(values.value[..], show);
    r := Join(texts, sep);
  }

  /** `join(Vector, char)`. */
  method JoinVectorChar(vector: Vector, sep: char, show: real -> string) returns (r: Result<string>)
    requires vector.Valid()
    ensures r.Err? <==> vector.nullBacked || vector.len == 0
    ensures r.Err? && vector.nullBacked ==> r.error == NullPointer
    ensures r.Err? && !vector.nullBacked ==> r.error == IndexOutOfBounds
    ensures r.Ok? ==> r.value == Joined(Shown(vector.Elements(), show), [sep])
  {
    r := JoinVector(vector, [sep], show);
  }
}
