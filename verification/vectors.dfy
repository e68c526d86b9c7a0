/** Result columns: slices, copies at given positions, and columns written one row at a time. */
module Vectors {
  import opened SqlValues

  /** Row `k` of `out` is row `rows[k]` of `v`. */
  ghost predicate Picks(t: Type, out: Vector, v: Vector, rows: seq<int>)
    requires v.Valid(t)
  {
    && out.Valid(t) && |out.nulls| == |rows|
    && (forall k | 0 <= k < |rows| :: 0 <= rows[k] < |v.nulls|)
    && forall k | 0 <= k < |rows| :: out.SqlAt(t, k) == v.SqlAt(t, rows[k])
  }

  ghost predicate Identity(rows: seq<int>) {
    forall k | 0 <= k < |rows| :: rows[k] == k
  }

  /** The first `n` rows, over the same data. */
  function Slice(v: Vector, n: nat): Vector
    requires n <= |v.nulls|
    requires v.Flat? ==> |v.values| == |v.nulls|
    requires v.FlatString? ==> |v.offsets| == |v.nulls| + 1
    requires v.Dictionary? ==> |v.ids| == |v.nulls|
  {
    match v
    case Flat(values, nulls) => Flat(values[..n], nulls[..n])
    case FlatString(buffer, offsets, nulls) => FlatString(buffer, offsets[..n + 1], nulls[..n])
    case Dictionary(dict, ids, nulls) => Dictionary(dict, ids[..n], nulls[..n])
  }

  lemma SlicePicks(t: Type, v: Vector, rows: seq<int>)
    requires v.Valid(t) && |rows| <= |v.nulls| && Identity(rows)
    ensures Picks(t, Slice(v, |rows|), v, rows)
  {
    var w := Slice(v, |rows|);
    if v.FlatString? {
      forall i | 0 <= i < |w.nulls| ensures SpanOk(w.buffer, w.offsets, i) {
        assert SpanOk(v.buffer, v.offsets, i);
      }
    }
  }

  lemma CellsPicked(t: Type, out: Vector, v: Vector, rows: seq<int>)
    requires v.Valid(t) && out.Valid(t) && |out.nulls| == |rows| && forall k | 0 <= k < |rows| ::
      0 <= rows[k] < |v.nulls|
    requires forall k | 0 <= k < |rows| :: out.nulls[k] == v.nulls[rows[k]]
    requires forall k | 0 <= k < |rows| :: out.DatumAt(t, k) == v.DatumAt(t, rows[k])
    ensures Picks(t, out, v, rows)
  {
    hide Vector.Valid, Vector.DatumAt;
  }

  /** Copy the rows at the given positions. Flat strings are not copied: the result is a dictionary over them. */
  method CopyPositions(t: Type, v: Vector, positions: array<int>, n: nat) returns (out: Vector)
    requires v.Valid(t) && n <= positions.Length
    requires forall k | 0 <= k < n :: 0 <= positions[k] < |v.nulls|
    ensures Picks(t, out, v, positions[..n])
  {
    hide Picks;
    var nulls := CopyNulls(v.nulls, positions, n);
    match v
    case Flat(values, _) =>
      var copied := CopyAll(values, positions, n);
      out := Flat(copied, nulls);
      CellsPicked(t, out, v, positions[..n]);
    case Dictionary(dict, ids, _) =>
      var copied := CopyAll(ids, positions, n);
      out := Dictionary(dict, copied, nulls);
      CellsPicked(t, out, v, positions[..n]);
    case FlatString(buffer, offsets, _) =>
      var dict := seq(|v.nulls|, i requires 0 <= i < |v.nulls| => v.DatumAt(t, i));
      out := Dictionary(dict, seq(n, i requires 0 <= i < n reads positions => positions[i]), nulls);
      CellsPicked(t, out, v, positions[..n]);
  }

  /** Only set bits are written into a cleared bitmap. */
  method CopyNulls(bits: seq<bool>, positions: array<int>, n: nat) returns (out: seq<bool>)
    requires n <= positions.Length && forall k | 0 <= k < n :: 0 <= positions[k] < |bits|
    ensures |out| == n && forall k | 0 <= k < n :: out[k] == bits[positions[k]]
  {
    var nulls := new bool[n](_ => false);
    for i := 0 to n
      invariant forall k | 0 <= k < n :: nulls[k] == (k < i && bits[positions[k]])
    {
      if bits[positions[i]] {
        nulls[i] := true;
      }
    }
    out := nulls[..];
  }

  method CopyAll<T(0)>(values: seq<T>, positions: array<int>, n: nat) returns (out: seq<T>)
    requires n <= positions.Length && forall k | 0 <= k < n :: 0 <= positions[k] < |values|
    ensures |out| == n && forall k | 0 <= k < n :: out[k] == values[positions[k]]
  {
    var copied := new T[n];
    for i := 0 to n
      invariant forall k | 0 <= k < i :: copied[k] == values[positions[k]]
    {
      copied[i] := values[positions[i]];
    }
    out := copied[..];
  }

  // ---------- a column written row by row ----------

  /** `done` strings lie behind one another in the buffer and fill it. */
  ghost predicate SpansOk(buffer: string, offsets: seq<nat>, done: nat) {
    |offsets| == done + 1 && offsets[done] == |buffer| && forall k | 0 <= k < done :: SpanOk(buffer, offsets, k)
  }

  function StringAt(buffer: string, offsets: seq<nat>, k: nat): Val
    requires k + 1 < |offsets| && SpanOk(buffer, offsets, k)
  {
    VPtr(buffer[offsets[k]..offsets[k + 1]])
  }

  ghost function Strings(buffer: string, offsets: seq<nat>, done: nat): seq<Val>
    requires SpansOk(buffer, offsets, done)
  {
    seq(done, k requires 0 <= k < done => StringAt(buffer, offsets, k))
  }

  /** Appending a string leaves the earlier ones alone. */
  lemma StringsAppend(buffer: string, offsets: seq<nat>, done: nat, chars: string)
    requires SpansOk(buffer, offsets, done)
    ensures SpansOk(buffer + chars, offsets + [|buffer + chars|], done + 1)
    ensures Strings(buffer + chars, offsets + [|buffer + chars|], done + 1) == Strings(buffer, offsets, done) +
      [VPtr(chars)]
  {
    var more, ends := buffer + chars, offsets + [|buffer + chars|];
    forall k | 0 <= k < done ensures SpanOk(more, ends, k) && StringAt(more, ends, k) == StringAt(buffer, offsets, k) {
      assert SpanOk(buffer, offsets, k);
    }
    assert SpanOk(more, ends, done) && StringAt(more, ends, done) == VPtr(chars);
  }

  /** A flat output column. Null bits start clear; strings go behind one another into one buffer. */
  class OutVector {
    const ty: Type
    const size: nat
    const values: array<Val>
    const nulls: array<bool>
    var buffer: string
    var offsets: seq<nat>

    /** The first `done` rows are written. */
    ghost predicate Valid(done: nat)
      reads this, values, nulls
    {
      && values.Length == nulls.Length == size && done <= size
      && (forall k | done <= k < size :: !nulls[k])
      && (ty != Varchar ==> forall k | 0 <= k < done :: Typed(ty, values[k]))
      && (ty == Varchar ==> SpansOk(buffer, offsets, done))
    }

    /** What the written rows hold, null or not. */
    ghost function Cells(done: nat): (cells: seq<Val>)
      requires Valid(done)
      reads this, values, nulls
      ensures |cells| == done
    {
      if ty != Varchar then values[..done] else Strings(buffer, offsets, done)
    }

    /** What the written rows show. */
    ghost function Shown(done: nat): (shown: seq<Sql>)
      requires Valid(done)
      reads this, values, nulls
      ensures |shown| == done
    {
      seq(done, k requires 0 <= k < done && Valid(done) reads this, values, nulls => if nulls[k] then Null
        else Value(Cells(done)[k]))
    }

    constructor (ty: Type, size: nat)
      ensures this.ty == ty && this.size == size && Valid(0) && fresh(values) && fresh(nulls)
    {
      this.ty := ty;
      this.size := size;
      this.values := new Val[size];
      this.nulls := new bool[size](_ => false);
      this.buffer := "";
      this.offsets := [0];
    }

    /** Write row `i`. Whatever stands behind a null is written too, as far as it denotes anything; of the null
        flags only a set one is written. */
    method SetValue(i: nat, data: Val, len: Val, isNull: bool)
      requires Valid(i) && i < size && Typed(ty, data)
      modifies this, values, nulls
      ensures Valid(i + 1)
      ensures Shown(i + 1) == old(Shown(i)) + [if isNull then Null else Value(Visible(ty, data, len))]
    {
      if ty == Varchar {
        var chars := Content(data, len);
        StringsAppend(buffer, offsets, i, chars);
        buffer := buffer + chars;
        offsets := offsets + [|buffer|];
      } else {
        values[i] := data;
      }
      assert Valid(i + 1) && Cells(i + 1) == old(Cells(i)) + [Visible(ty, data, len)];
      label written:
      if isNull {
        nulls[i] := true;
      }
      assert Valid(i + 1) && Cells(i + 1) == old@written(Cells(i + 1));
    }

    method Finish() returns (out: Vector)
      requires Valid(size)
      ensures out.Valid(ty) && |out.nulls| == size
      ensures forall k | 0 <= k < size :: out.SqlAt(ty, k) == Shown(size)[k]
    {
      if ty == Varchar {
        out := FlatString(buffer, offsets, nulls[..]);
        forall k | 0 <= k < size ensures out.SqlAt(ty, k) == Shown(size)[k] {
          assert SpanOk(buffer, offsets, k);
          assert buffer[offsets[k]..][..offsets[k + 1] - offsets[k]] == buffer[offsets[k]..offsets[k + 1]];
          assert Cells(size)[k] == StringAt(buffer, offsets, k);
        }
      } else {
        out := Flat(values[..], nulls[..]);
      }
    }
  }
}
