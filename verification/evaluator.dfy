/** Filters and projections over batches: the row loops around compiled functions, and the short cuts. */
module Evaluator {
  import opened SqlValues
  import opened Expressions
  import opened BlockIR
  import opened Translation
  import opened ExpressionCodegen
  import opened Selection
  import opened Vectors

  /** Run a compiled function on a row. */
  method Call(ctx: Context, ghost schema: seq<Type>, ghost ov: bool, blocks: seq<Block>, ghost e: Expr) returns (a: Arg)
    requires ContextOk(ctx, schema) && WellTyped(e, schema) && Implements(schema, ov, blocks, e)
    ensures ArgOk(TypeOf(e), a) && SqlOf(TypeOf(e), a) == Eval(ctx, schema, ov, e)
  {
    hide WellFormed, ContextOk, Exec, ArgOk, Machine;
    var s := State(0, 0, 0, map[], map[]);
    ghost var t, n := RunLength(ctx, schema, ov, blocks, e, s);
    var next := Step(ctx, blocks, s);
    while next.Some?
      invariant Iterate(Machine(ctx, blocks), s, n) == Some(t) && next == Step(ctx, blocks, s)
      decreases n
    {
      MachineSteps(ctx, blocks, s);
      MachineSteps(ctx, blocks, t);
      s, n := next.value, n - 1;
      next := Step(ctx, blocks, s);
    }
    MachineSteps(ctx, blocks, s);
    var r := blocks[s.block].term.value;
    a := Arg(Ev(s, r.data).value, Ev(s, r.len).value, BoolOf(s, r.isNull).value);
  }

  /** The run and where it ends. */
  lemma RunLength(ctx: Context, schema: seq<Type>, ov: bool, blocks: seq<Block>, e: Expr, s: State)
                  returns (t: State, n: nat)
    requires ContextOk(ctx, schema) && WellTyped(e, schema) && Implements(schema, ov, blocks, e) && s.block == 0 &&
      s.idx == 0
    ensures Iterate(Machine(ctx, blocks), s, n) == Some(t) && Step(ctx, blocks, t).None?
    ensures Returns(blocks, t, TypeOf(e), Eval(ctx, schema, ov, e))
  {
    hide WellFormed, ContextOk, Exec, Holds;
    assert ReturnsFrom(ctx, schema, ov, blocks, e, s);
    t :| Reaches(ctx, blocks, s, t) && Returns(blocks, t, TypeOf(e), Eval(ctx, schema, ov, e));
    n :| Iterate(Machine(ctx, blocks), s, n) == Some(t);
  }

  lemma MachineSteps(ctx: Context, blocks: seq<Block>, s: State)
    ensures Machine(ctx, blocks)(s) == Step(ctx, blocks, s)
  {
  }

  /** Compile a tree, or refuse it. */
  method Compile(e: Expr, schema: seq<Type>, ov: bool) returns (blocks: Option<seq<Block>>)
    requires WellTyped(e, schema)
    ensures blocks.Some? <==> Compilable(e)
    ensures blocks.Some? ==> Implements(schema, ov, blocks.value, e)
  {
    var codeGen := new ExpressionCodeGen(schema, ov);
    var ok := codeGen.CreateFunction(e);
    blocks := if ok then Some(codeGen.builder.fn.blocks) else None;
  }

  // ---------- filter ----------

  class Filter {
    const expr: Expr
    const schema: seq<Type>
    const ov: bool
    var apply: Option<seq<Block>>

    ghost predicate Valid()
      reads this
    {
      && WellTyped(expr, schema) && TypeOf(expr) == Boolean
      && (apply.Some? <==> Compilable(expr)) && (apply.Some? ==> Implements(schema, ov, apply.value, expr))
    }

    constructor (expr: Expr, schema: seq<Type>, ov: bool)
      requires WellTyped(expr, schema) && TypeOf(expr) == Boolean
      ensures Valid() && this.expr == expr && this.schema == schema && this.ov == ov
    {
      hide Implements;
      this.expr := expr;
      this.schema := schema;
      this.ov := ov;
      this.apply := None;
      new;
      apply := Compile(expr, schema, ov);
    }

    predicate IsSupported()
      reads this
    {
      apply.Some?
    }

    /** The emitted selection loop: run the function on each row, and list the rows it is true on. */
    method Apply(b: Batch, results: array<int>) returns (selected: nat)
      requires Valid() && IsSupported() && BatchOk(b, schema) && b.rowCount <= results.Length
      modifies results
      ensures selected <= b.rowCount && results[..selected] == Passing(b, schema, ov, expr, b.rowCount)
      ensures results[selected..] == old(results[selected..])
    {
      hide Implements, WellTyped, ContextOk, Passing;
      NonePass(b, schema, ov, expr);
      var curIndex := 0;
      selected := 0;
      while true
        invariant 0 <= curIndex < b.rowCount && selected <= curIndex
        invariant results[..selected] == Passing(b, schema, ov, expr, curIndex)
        invariant forall k | selected <= k < results.Length :: results[k] == old(results[k])
        decreases b.rowCount - curIndex
      {
        RowOk(b, schema, curIndex);
        var ret := Call(b.At(curIndex), schema, ov, apply.value, expr);
        if !ret.isNull && ret.data.b {
          results[selected] := curIndex;
          selected := selected + 1;
        }
        OneMorePasses(b, schema, ov, expr, curIndex);
        curIndex := curIndex + 1;
        if curIndex >= b.rowCount {
          break;
        }
      }
    }
  }

  lemma NonePass(b: Batch, schema: seq<Type>, ov: bool, e: Expr)
    requires BatchOk(b, schema) && WellTyped(e, schema)
    ensures b.rowCount > 0 && Passing(b, schema, ov, e, 0) == []
  {
  }

  lemma OneMorePasses(b: Batch, schema: seq<Type>, ov: bool, e: Expr, n: nat)
    requires BatchOk(b, schema) && WellTyped(e, schema) && n < b.rowCount
    ensures Passing(b, schema, ov, e, n + 1) == Passing(b, schema, ov, e, n) + if RowValue(b, schema, ov, e, n) == TRUE
      then [n] else []
  {
  }

  // ---------- projection ----------

  /** Row `k` of `out` is the expression on row `rows[k]` of the batch. */
  ghost predicate Shows(out: Vector, b: Batch, schema: seq<Type>, ov: bool, e: Expr, rows: seq<int>)
    requires BatchOk(b, schema) && WellTyped(e, schema) && Within(rows, b.rowCount)
  {
    && out.Valid(TypeOf(e)) && |out.nulls| == |rows|
    && forall k | 0 <= k < |rows| :: out.SqlAt(TypeOf(e), k) == RowValue(b, schema, ov, e, rows[k])
  }

  /** The rows to project: the selected ones, or all of them. */
  ghost function Rows(selected: array?<int>, n: nat): seq<int>
    requires selected != null ==> n <= selected.Length
    reads selected
  {
    if selected == null then seq(n, i => i) else selected[..n]
  }

  /** What the filter hands over, or no filter and every row. */
  ghost predicate RowsOk(b: Batch, selected: array?<int>, n: nat)
    reads selected
  {
    && 0 < n <= b.rowCount && (selected == null ==> n == b.rowCount)
    && (selected != null ==> n <= selected.Length && Increasing(selected[..n]) && Within(selected[..n], b.rowCount))
  }

  lemma RowsAre(b: Batch, selected: array?<int>, n: nat)
    requires RowsOk(b, selected, n)
    ensures 0 < n && (selected != null ==> n <= selected.Length)
    ensures var rows := Rows(selected, n);
      |rows| == n && Within(rows, b.rowCount) && (n == b.rowCount ==> Identity(rows))
  {
    if selected != null && n == b.rowCount {
      FullIsIdentity(selected[..n], n, 0);
    }
  }

  lemma RowAt(b: Batch, selected: array?<int>, n: nat, i: nat)
    requires RowsOk(b, selected, n) && i < n
    ensures selected != null ==> n <= selected.Length
    ensures |Rows(selected, n)| == n && Rows(selected, n)[i] == if selected != null then selected[i] else i
  {
  }

  lemma RowValueIs(b: Batch, schema: seq<Type>, ov: bool, e: Expr, row: nat)
    requires BatchOk(b, schema) && WellTyped(e, schema) && row < b.rowCount && ContextOk(b.At(row), schema)
    ensures RowValue(b, schema, ov, e, row) == Eval(b.At(row), schema, ov, e)
  {
  }

  lemma LiteralValue(ctx: Context, schema: seq<Type>, ov: bool, e: Expr)
    requires ContextOk(ctx, schema) && WellTyped(e, schema) && e.Literal?
    ensures Eval(ctx, schema, ov, e) == if e.isNull then Null else Value(e.data)
  {
  }

  lemma FieldShows(out: Vector, b: Batch, schema: seq<Type>, ov: bool, e: Expr, rows: seq<int>)
    requires BatchOk(b, schema) && WellTyped(e, schema) && e.Field? && Within(rows, b.rowCount)
    requires Picks(e.ty, out, b.columns[e.col], rows)
    ensures Shows(out, b, schema, ov, e, rows)
  {
    forall k | 0 <= k < |rows| ensures RowValue(b, schema, ov, e, rows[k]) == b.columns[e.col].SqlAt(e.ty, rows[k]) {
      RowOk(b, schema, rows[k]);
    }
  }

  /** A column written with the expression's values shows the expression. */
  lemma WrittenShows(out: Vector, b: Batch, schema: seq<Type>, ov: bool, e: Expr, rows: seq<int>, shown: seq<Sql>)
    requires BatchOk(b, schema) && WellTyped(e, schema) && Within(rows, b.rowCount) && |shown| == |rows|
    requires out.Valid(TypeOf(e)) && |out.nulls| == |rows|
    requires forall k | 0 <= k < |rows| :: out.SqlAt(TypeOf(e), k) == shown[k]
    requires forall k | 0 <= k < |rows| :: shown[k] == RowValue(b, schema, ov, e, rows[k])
    ensures Shows(out, b, schema, ov, e, rows)
  {
    hide RowValue, BatchOk, Vector.Valid, Vector.SqlAt;
  }

  class Projection {
    const expr: Expr
    const schema: seq<Type>
    const ov: bool
    const filter: bool
    var columnProjection: Option<nat>
    var constantProjection: Option<Option<Val>>
    var projector: Option<seq<Block>>
    var isSupported: bool

    ghost predicate Valid()
      reads this
    {
      && WellTyped(expr, schema)
      && (columnProjection.Some? ==> isSupported && expr.Field? && expr.col == columnProjection.value)
      && (constantProjection.Some? ==>
            isSupported && expr.Literal? && constantProjection.value == if expr.isNull then None else Some(expr.data))
      && (projector.Some? ==> Implements(schema, ov, projector.value, expr))
      && (isSupported ==> columnProjection.Some? || constantProjection.Some? || projector.Some?)
      && (isSupported <==> Compilable(expr))
    }

    constructor (expr: Expr, schema: seq<Type>, ov: bool, filter: bool)
      requires WellTyped(expr, schema)
      ensures Valid() && this.expr == expr && this.schema == schema && this.ov == ov && this.filter == filter
    {
      hide Implements, WellTyped, TypeOf;
      this.expr := expr;
      this.schema := schema;
      this.ov := ov;
      this.filter := filter;
      this.columnProjection := None;
      this.constantProjection := None;
      this.projector := None;
      this.isSupported := false;
      new;
      match expr
      case Field(_, col) =>
        columnProjection := Some(col);
        isSupported := true;
      case Literal(_, isNull, data) =>
        constantProjection := Some(if isNull then None else Some(data));
        isSupported := true;
      case _ =>
        projector := Compile(expr, schema, ov);
        isSupported := projector.Some?;
    }

    /** A column of the batch: all its rows when every row is selected, else the selected ones. */
    method ColumnProjection(b: Batch, selected: array?<int>, n: nat) returns (out: Vector)
      requires Valid() && columnProjection.Some? && BatchOk(b, schema) && RowsOk(b, selected, n)
      ensures Within(Rows(selected, n), b.rowCount) && Shows(out, b, schema, ov, expr, Rows(selected, n))
    {
      hide Implements, Picks, Shows;
      var column := b.columns[columnProjection.value];
      RowsAre(b, selected, n);
      if n == b.rowCount {
        out := Slice(column, n);
        SlicePicks(expr.ty, column, Rows(selected, n));
      } else {
        out := CopyPositions(expr.ty, column, selected, n);
      }
      FieldShows(out, b, schema, ov, expr, Rows(selected, n));
    }

    /** The same value on every row, or a null on every row. */
    method ConstantProjection(b: Batch, selected: array?<int>, n: nat) returns (out: Vector)
      requires Valid() && constantProjection.Some? && BatchOk(b, schema) && RowsOk(b, selected, n)
      ensures Within(Rows(selected, n), b.rowCount) && Shows(out, b, schema, ov, expr, Rows(selected, n))
    {
      hide Implements, ContextOk, OutVector.Shown, OutVector.Cells, Rows, RowsOk, Vector.Valid, Vector.SqlAt, Shows;
      RowsAre(b, selected, n);
      var literal := constantProjection.value;
      var length := VInt(if expr.data.VPtr? then |expr.data.bytes| else 0);
      ghost var meant := if literal.None? then Null else Value(literal.value);
      assert Visible(expr.ty, expr.data, length) == expr.data;
      var outVec := new OutVector(expr.ty, n);
      for i := 0 to n
        invariant outVec.Valid(i) && forall k | 0 <= k < i :: outVec.Shown(i)[k] == meant
      {
        outVec.SetValue(i, expr.data, length, literal.None?);
      }
      out := outVec.Finish();
      ghost var rows := Rows(selected, n);
      forall k | 0 <= k < n ensures RowValue(b, schema, ov, expr, rows[k]) == meant {
        RowOk(b, schema, rows[k]);
        LiteralValue(b.At(rows[k]), schema, ov, expr);
      }
      WrittenShows(out, b, schema, ov, expr, rows, outVec.Shown(n));
    }

    /** One turn of the projection loop. */
    method ProcessRow(b: Batch, row: nat, outVec: OutVector, i: nat)
      requires Valid() && projector.Some? && BatchOk(b, schema) && row < b.rowCount
      requires outVec.Valid(i) && i < outVec.size && outVec.ty == TypeOf(expr)
      modifies outVec, outVec.values, outVec.nulls
      ensures outVec.Valid(i + 1) && outVec.Shown(i + 1) == old(outVec.Shown(i)) + [RowValue(b, schema, ov, expr, row)]
    {
      hide Implements, BatchOk, WellTyped, ContextOk, OutVector.Shown, OutVector.Cells, OutVector.Valid, LenOk, Visible,
        RowValue;
      RowOk(b, schema, row);
      RowValueIs(b, schema, ov, expr, row);
      var ret := Call(b.At(row), schema, ov, projector.value, expr);
      outVec.SetValue(i, ret.data, ret.len, ret.isNull);
    }

    /** The emitted projection loop: run the function on each row and write its result. */
    method CompiledProjection(b: Batch, selected: array?<int>, n: nat) returns (out: Vector)
      requires Valid() && projector.Some? && BatchOk(b, schema) && RowsOk(b, selected, n) &&
        (filter <==> selected != null)
      ensures Within(Rows(selected, n), b.rowCount) && Shows(out, b, schema, ov, expr, Rows(selected, n))
    {
      hide Implements, BatchOk, WellTyped, ContextOk, OutVector.Shown, OutVector.Cells, Rows, RowsOk, LenOk, Visible,
        Vector.Valid, Vector.SqlAt, Shows, RowValue;
      RowsAre(b, selected, n);
      ghost var rows := Rows(selected, n);
      var outVec := new OutVector(TypeOf(expr), n);
      var curIndex := 0;
      while true
        invariant 0 <= curIndex < n && outVec.Valid(curIndex)
        invariant forall k | 0 <= k < curIndex :: outVec.Shown(curIndex)[k] == RowValue(b, schema, ov, expr, rows[k])
        decreases n - curIndex
      {
        RowAt(b, selected, n, curIndex);
        var row: nat := if filter then selected[curIndex] else curIndex;
        ProcessRow(b, row, outVec, curIndex);
        curIndex := curIndex + 1;
        if curIndex >= n {
          break;
        }
      }
      out := outVec.Finish();
      WrittenShows(out, b, schema, ov, expr, rows, outVec.Shown(n));
    }

    /** Whichever way, the column shows the expression on the rows asked for. */
    method Project(b: Batch, selected: array?<int>, n: nat) returns (out: Vector)
      requires Valid() && isSupported && BatchOk(b, schema) && RowsOk(b, selected, n) && (filter <==> selected != null)
      ensures Within(Rows(selected, n), b.rowCount) && Shows(out, b, schema, ov, expr, Rows(selected, n))
    {
      hide Implements, Shows;
      if columnProjection.Some? {
        out := ColumnProjection(b, selected, n);
      } else if constantProjection.Some? {
        out := ConstantProjection(b, selected, n);
      } else {
        out := CompiledProjection(b, selected, n);
      }
    }
  }

  // ---------- filter and project ----------

  /** Every output column shows its projection on the given rows. */
  ghost predicate AllShow(out: seq<Vector>, b: Batch, schema: seq<Type>, ov: bool, es: seq<Expr>, rows: seq<int>)
    requires BatchOk(b, schema) && Within(rows, b.rowCount) && forall c | 0 <= c < |es| :: WellTyped(es[c], schema)
  {
    |out| == |es| && forall c | 0 <= c < |es| :: Shows(out[c], b, schema, ov, es[c], rows)
  }

  lemma NoneShow(b: Batch, schema: seq<Type>, ov: bool, es: seq<Expr>, rows: seq<int>)
    requires BatchOk(b, schema) && Within(rows, b.rowCount)
    ensures AllShow([], b, schema, ov, es[..0], rows)
  {
  }

  lemma OneMoreShows(out: seq<Vector>, v: Vector, b: Batch, schema: seq<Type>, ov: bool, es: seq<Expr>, i: nat,
                     rows: seq<int>)
    requires BatchOk(b, schema) && Within(rows, b.rowCount) && i < |es| && forall c | 0 <= c < |es| ::
      WellTyped(es[c], schema)
    requires AllShow(out, b, schema, ov, es[..i], rows) && Shows(v, b, schema, ov, es[i], rows)
    ensures AllShow(out + [v], b, schema, ov, es[..i + 1], rows)
  {
    hide Shows, BatchOk, WellTyped;
    forall c | 0 <= c < i + 1 ensures Shows((out + [v])[c], b, schema, ov, es[..i + 1][c], rows) {
      if c < i {
        assert es[..i][c] == es[c];
      }
    }
  }

  class ExpressionEvaluator {
    const filterExpr: Option<Expr>
    const projExprs: seq<Expr>
    const schema: seq<Type>
    const ov: bool
    var filter: Filter?
    var projections: seq<Projection>
    var isSupportedExpr: bool

    constructor (filterExpr: Option<Expr>, projExprs: seq<Expr>, schema: seq<Type>, ov: bool)
      ensures this.filterExpr == filterExpr && this.projExprs == projExprs && this.schema == schema && this.ov == ov
      ensures filter == null && projections == [] && isSupportedExpr
    {
      this.filterExpr := filterExpr;
      this.projExprs := projExprs;
      this.schema := schema;
      this.ov := ov;
      this.filter := null;
      this.projections := [];
      this.isSupportedExpr := true;
    }

    /** Build the filter, if there is one, and the projections, stopping at the first unsupported one. */
    method FuncGeneration()
      requires filter == null && projections == [] && isSupportedExpr
      requires filterExpr.Some? ==> WellTyped(filterExpr.value, schema) && TypeOf(filterExpr.value) == Boolean
      requires forall c | 0 <= c < |projExprs| :: WellTyped(projExprs[c], schema)
      modifies this
      ensures isSupportedExpr <==>
        (filterExpr.Some? ==> Compilable(filterExpr.value)) && forall c | 0 <= c < |projExprs| ::
          Compilable(projExprs[c])
      ensures isSupportedExpr ==> Valid()
    {
      hide WellTyped, Compilable, Implements, TypeOf;
      if filterExpr.Some? {
        filter := new Filter(filterExpr.value, schema, ov);
        if !filter.IsSupported() {
          isSupportedExpr := false;
        }
      }
      ghost var filterOk := isSupportedExpr;
      for i := 0 to |projExprs|
        invariant |projections| == i && isSupportedExpr == filterOk && (filter != null <==> filterExpr.Some?)
        invariant filter != null ==> FilterReady()
        invariant forall c | 0 <= c < i :: Ready(projections[c], projExprs[c]) && Compilable(projExprs[c])
      {
        var projection := new Projection(projExprs[i], schema, ov, filter != null);
        if !projection.isSupported {
          isSupportedExpr := false;
          break;
        }
        projections := projections + [projection];
      }
    }

    ghost predicate FilterReady()
      requires filter != null && filterExpr.Some?
      reads this, filter
    {
      filter.Valid() && filter.expr == filterExpr.value && filter.schema == schema && filter.ov == ov
    }

    ghost predicate Valid()
      reads this, filter, projections
    {
      && (filter != null <==> filterExpr.Some?)
      && (filter != null ==> FilterReady() && filter.IsSupported())
      && |projections| == |projExprs|
      && forall c | 0 <= c < |projections| :: Ready(projections[c], projExprs[c])
    }

    ghost predicate Ready(p: Projection, e: Expr)
      reads this, p
    {
      p.Valid() && p.isSupported && p.expr == e && p.schema == schema && p.ov == ov && (p.filter <==> filter != null)
    }

    lemma Exprs()
      requires Valid()
      ensures forall c | 0 <= c < |projExprs| :: WellTyped(projExprs[c], schema)
    {
      forall c | 0 <= c < |projExprs| ensures WellTyped(projExprs[c], schema) {
        assert Ready(projections[c], projExprs[c]);
      }
    }

    /** Project the given rows, one output column at a time. */
    method ProjectAll(b: Batch, selected: array?<int>, n: nat) returns (out: seq<Vector>)
      requires Valid() && BatchOk(b, schema) && RowsOk(b, selected, n) && (filter != null <==> selected != null)
      ensures Within(Rows(selected, n), b.rowCount) && forall c | 0 <= c < |projExprs| ::
        WellTyped(projExprs[c], schema)
      ensures AllShow(out, b, schema, ov, projExprs, Rows(selected, n))
    {
      hide Shows, AllShow, BatchOk, RowsOk, Rows, WellTyped, Projection.Valid, Filter.Valid;
      Exprs();
      RowsAre(b, selected, n);
      ghost var rows := Rows(selected, n);
      out := [];
      NoneShow(b, schema, ov, projExprs, rows);
      for i := 0 to |projections|
        invariant AllShow(out, b, schema, ov, projExprs[..i], rows)
      {
        assert Ready(projections[i], projExprs[i]);
        var col := projections[i].Project(b, selected, n);
        OneMoreShows(out, col, b, schema, ov, projExprs, i, rows);
        out := out + [col];
      }
      assert projExprs[..|projections|] == projExprs;
    }

    /** Nothing when no row passes, else row `k` of column `c` is projection `c` on the `k`-th passing row. */
    method ProcessFilterAndProject(b: Batch, selectedRows: array<int>) returns (out: Option<seq<Vector>>)
      requires Valid() && filter != null && BatchOk(b, schema) && b.rowCount <= selectedRows.Length
      modifies selectedRows
      ensures Valid() && WellTyped(filterExpr.value, schema) && forall c | 0 <= c < |projExprs| ::
        WellTyped(projExprs[c], schema)
      ensures var rows := Passing(b, schema, ov, filterExpr.value, b.rowCount);
        && Within(rows, b.rowCount)
        && (out.None? <==> rows == [])
        && (out.Some? ==> AllShow(out.value, b, schema, ov, projExprs, rows))
    {
      hide Shows, AllShow, BatchOk, WellTyped, Projection.Valid;
      Exprs();
      var numSelectedRows := filter.Apply(b, selectedRows);
      PassingIs(b, schema, ov, filterExpr.value, b.rowCount);
      if numSelectedRows <= 0 {
        out := None;
      } else {
        var projectedVecs := ProjectAll(b, selectedRows, numSelectedRows);
        out := Some(projectedVecs);
      }
    }

    /** Without a filter, row `k` of column `c` is projection `c` on row `k`. */
    method ProcessProject(b: Batch) returns (out: seq<Vector>)
      requires Valid() && filter == null && BatchOk(b, schema)
      ensures forall c | 0 <= c < |projExprs| :: WellTyped(projExprs[c], schema)
      ensures AllShow(out, b, schema, ov, projExprs, seq(b.rowCount, i => i))
    {
      hide Shows, AllShow, WellTyped, Projection.Valid;
      out := ProjectAll(b, null, b.rowCount);
    }
  }
}
