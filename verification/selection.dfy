/** Batches of rows and the rows a predicate selects. */
module Selection {
  import opened SqlValues
  import opened Expressions

  datatype Batch = Batch(kernels: Kernels, columns: seq<Vector>, rowCount: nat)
  {
    function At(row: nat): Context {
      Context(kernels, columns, row)
    }
  }

  /** The emitted row loops test at the end, so a batch has a row. */
  ghost predicate BatchOk(b: Batch, schema: seq<Type>) {
    && b.rowCount > 0 && KernelsOk(b.kernels) && |b.columns| == |schema|
    && forall c | 0 <= c < |schema| :: b.columns[c].Valid(schema[c]) && |b.columns[c].nulls| == b.rowCount
  }

  lemma RowOk(b: Batch, schema: seq<Type>, row: nat)
    requires BatchOk(b, schema) && row < b.rowCount
    ensures ContextOk(b.At(row), schema)
  {
  }

  /** An expression on a row of a batch. */
  ghost function RowValue(b: Batch, schema: seq<Type>, ov: bool, e: Expr, row: nat): Sql
    requires BatchOk(b, schema) && WellTyped(e, schema) && row < b.rowCount
  {
    RowOk(b, schema, row);
    Eval(b.At(row), schema, ov, e)
  }

  /** The rows below `n` on which the predicate is true, neither false nor null. */
  ghost function Passing(b: Batch, schema: seq<Type>, ov: bool, e: Expr, n: nat): seq<int>
    requires BatchOk(b, schema) && WellTyped(e, schema) && n <= b.rowCount
  {
    if n == 0 then []
    else Passing(b, schema, ov, e, n - 1) + if RowValue(b, schema, ov, e, n - 1) == TRUE then [n - 1] else []
  }

  predicate Increasing(rows: seq<int>) {
    forall i, j | 0 <= i < j < |rows| :: rows[i] < rows[j]
  }

  predicate Within(rows: seq<int>, n: nat) {
    forall i | 0 <= i < |rows| :: 0 <= rows[i] < n
  }

  /** Exactly the true rows, in order. */
  lemma {:induction false} PassingIs(b: Batch, schema: seq<Type>, ov: bool, e: Expr, n: nat)
    requires BatchOk(b, schema) && WellTyped(e, schema) && n <= b.rowCount
    ensures var rows := Passing(b, schema, ov, e, n);
      Increasing(rows) && Within(rows, n) && |rows| <= n &&
      forall row | 0 <= row < n :: row in rows <==> RowValue(b, schema, ov, e, row) == TRUE
  {
    hide BatchOk, WellTyped, RowValue;
    if n > 0 {
      PassingIs(b, schema, ov, e, n - 1);
      var before, rows := Passing(b, schema, ov, e, n - 1), Passing(b, schema, ov, e, n);
      forall row | 0 <= row < n ensures row in rows <==> RowValue(b, schema, ov, e, row) == TRUE {
        assert row in before || row !in before;
      }
    }
  }

  /** A set of rows has one increasing listing, so the one above is determined by what it contains. */
  lemma {:induction false} IncreasingUnique(a: seq<int>, b: seq<int>)
    requires Increasing(a) && Increasing(b) && forall x :: x in a <==> x in b
    ensures a == b
  {
    assert b != [] ==> b[0] in b;
    if a != [] {
      assert a[0] in a && a[0] in b;
      assert b[0] in a;
      var i :| 0 <= i < |b| && b[i] == a[0];
      var j :| 0 <= j < |a| && a[j] == b[0];
      assert a[0] == b[0];
      forall x ensures x in a[1..] <==> x in b[1..] {
        TailMembers(a, x);
        TailMembers(b, x);
      }
      IncreasingUnique(a[1..], b[1..]);
      assert a == [a[0]] + a[1..] && b == [b[0]] + b[1..];
    }
  }

  lemma TailMembers(a: seq<int>, x: int)
    requires Increasing(a) && a != []
    ensures x in a[1..] <==> x in a && x != a[0]
  {
    if x in a && x != a[0] {
      var i :| 0 <= i < |a| && a[i] == x;
      assert a[1..][i - 1] == x;
    }
  }

  /** As many selected rows as rows: they are all there, each in its own place. */
  lemma {:induction false} FullIsIdentity(rows: seq<int>, n: nat, i: nat)
    requires Increasing(rows) && Within(rows, n) && |rows| == n && i <= n
    ensures forall k | i <= k < n :: rows[k] == k
    decreases n - i
  {
    if i < n {
      AtLeast(rows, i);
      AtMost(rows, n, i);
      FullIsIdentity(rows, n, i + 1);
    }
  }

  lemma {:induction false} AtLeast(rows: seq<int>, i: nat)
    requires Increasing(rows) && i < |rows| && rows[0] >= 0
    ensures rows[i] >= i
  {
    if i > 0 {
      AtLeast(rows, i - 1);
    }
  }

  lemma {:induction false} AtMost(rows: seq<int>, n: nat, i: nat)
    requires Increasing(rows) && Within(rows, n) && |rows| == n && i < n
    ensures rows[i] <= i
    decreases n - i
  {
    if i + 1 < n {
      AtMost(rows, n, i + 1);
    }
  }

  // ---------- encodings do not matter ----------

  /** The two rows show the same values, whatever the encodings of their columns. */
  ghost predicate SameShown(schema: seq<Type>, x: Context, y: Context)
    requires ContextOk(x, schema) && ContextOk(y, schema)
  {
    && x.kernels == y.kernels
    && forall c | 0 <= c < |schema| :: x.columns[c].SqlAt(schema[c], x.row) == y.columns[c].SqlAt(schema[c], y.row)
  }

  lemma SameIn(schema: seq<Type>, ov: bool, x: Context, y: Context, es: seq<Expr>)
    requires ContextOk(x, schema) && ContextOk(y, schema) && WellTyped(In(es), schema)
    requires forall i | 0 <= i < |es| :: Eval(x, schema, ov, es[i]) == Eval(y, schema, ov, es[i])
    ensures Eval(x, schema, ov, In(es)) == Eval(y, schema, ov, In(es))
  {
    assert seq(|es| - 1, i requires 0 <= i < |es| - 1 => Eval(x, schema, ov, es[i + 1]))
        == seq(|es| - 1, i requires 0 <= i < |es| - 1 => Eval(y, schema, ov, es[i + 1]));
  }

  lemma SameFunc(schema: seq<Type>, ov: bool, x: Context, y: Context, sig: FnSig, args: seq<Expr>)
    requires ContextOk(x, schema) && ContextOk(y, schema) && WellTyped(Func(sig, args), schema) &&
      x.kernels == y.kernels
    requires forall i | 0 <= i < |args| :: Eval(x, schema, ov, args[i]) == Eval(y, schema, ov, args[i])
    ensures Eval(x, schema, ov, Func(sig, args)) == Eval(y, schema, ov, Func(sig, args))
  {
    assert seq(|args|, i requires 0 <= i < |args| => Eval(x, schema, ov, args[i]))
        == seq(|args|, i requires 0 <= i < |args| => Eval(y, schema, ov, args[i]));
  }

  lemma {:induction false} SameValue(schema: seq<Type>, ov: bool, x: Context, y: Context, e: Expr)
    requires ContextOk(x, schema) && ContextOk(y, schema) && SameShown(schema, x, y) && WellTyped(e, schema)
    ensures Eval(x, schema, ov, e) == Eval(y, schema, ov, e)
    decreases e, 1
  {
    hide ContextOk, SameShown;
    match e
    case Literal(_, _, _) =>
    case Field(_, col) => SameField(schema, x, y, col);
    case Not(v) => SameValue(schema, ov, x, y, v);
    case IsNull(v) => SameValue(schema, ov, x, y, v);
    case Binary(op, l, r) =>
      SameKernels(schema, x, y);
      SameValue(schema, ov, x, y, l);
      SameValue(schema, ov, x, y, r);
    case Between(v, lo, hi) =>
      SameKernels(schema, x, y);
      SameValue(schema, ov, x, y, v);
      SameValue(schema, ov, x, y, lo);
      SameValue(schema, ov, x, y, hi);
    case If(c, t, f) =>
      SameValue(schema, ov, x, y, c);
      SameValue(schema, ov, x, y, t);
      SameValue(schema, ov, x, y, f);
    case Coalesce(a, b) =>
      SameValue(schema, ov, x, y, a);
      SameValue(schema, ov, x, y, b);
    case In(es) =>
      forall i | 0 <= i < |es| ensures Eval(x, schema, ov, es[i]) == Eval(y, schema, ov, es[i]) {
        SameValue(schema, ov, x, y, es[i]);
      }
      SameIn(schema, ov, x, y, es);
    case Func(sig, args) =>
      SameKernels(schema, x, y);
      forall i | 0 <= i < |args| ensures Eval(x, schema, ov, args[i]) == Eval(y, schema, ov, args[i]) {
        SameValue(schema, ov, x, y, args[i]);
      }
      SameFunc(schema, ov, x, y, sig, args);
    case Switch(ws, els) => SameWhens(schema, ov, x, y, ws, els, e, 0);
  }

  lemma {:induction false} SameWhens(schema: seq<Type>, ov: bool, x: Context, y: Context, ws: seq<(Expr, Expr)>,
                                     els: Expr, e: Expr, i: nat)
    requires ContextOk(x, schema) && ContextOk(y, schema) && SameShown(schema, x, y)
    requires e == Switch(ws, els) && WellTyped(e, schema) && i <= |ws|
    ensures EvalWhens(x, schema, ov, ws, els, e, i) == EvalWhens(y, schema, ov, ws, els, e, i)
    decreases e, 0, |ws| - i
  {
    hide ContextOk, SameShown;
    if i == |ws| {
      SameValue(schema, ov, x, y, els);
    } else {
      SameValue(schema, ov, x, y, ws[i].0);
      SameValue(schema, ov, x, y, ws[i].1);
      SameWhens(schema, ov, x, y, ws, els, e, i + 1);
    }
  }

  lemma SameField(schema: seq<Type>, x: Context, y: Context, col: nat)
    requires ContextOk(x, schema) && ContextOk(y, schema) && SameShown(schema, x, y) && col < |schema|
    ensures x.columns[col].SqlAt(schema[col], x.row) == y.columns[col].SqlAt(schema[col], y.row)
  {
  }

  lemma SameKernels(schema: seq<Type>, x: Context, y: Context)
    requires ContextOk(x, schema) && ContextOk(y, schema) && SameShown(schema, x, y)
    ensures x.kernels == y.kernels
  {
  }

  ghost predicate SameBatch(schema: seq<Type>, x: Batch, y: Batch)
    requires BatchOk(x, schema) && BatchOk(y, schema)
  {
    && x.kernels == y.kernels && x.rowCount == y.rowCount
    && forall c, row: nat | 0 <= c < |schema| && row < x.rowCount ::
         x.columns[c].SqlAt(schema[c], row) == y.columns[c].SqlAt(schema[c], row)
  }

  /** Flat or dictionary-encoded, a batch selects the same rows and yields the same values. */
  lemma {:induction false} SameSelection(schema: seq<Type>, ov: bool, x: Batch, y: Batch, e: Expr, n: nat)
    requires BatchOk(x, schema) && BatchOk(y, schema) && SameBatch(schema, x, y) && WellTyped(e, schema) &&
      n <= x.rowCount
    ensures forall row: nat | row < n :: RowValue(x, schema, ov, e, row) == RowValue(y, schema, ov, e, row)
    ensures Passing(x, schema, ov, e, n) == Passing(y, schema, ov, e, n)
  {
    hide WellTyped, Eval;
    if n > 0 {
      SameSelection(schema, ov, x, y, e, n - 1);
      RowOk(x, schema, n - 1);
      RowOk(y, schema, n - 1);
      SameValue(schema, ov, x.At(n - 1), y.At(n - 1), e);
    }
  }
}
