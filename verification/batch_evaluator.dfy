/** Batch functions at work, compared with what the row functions return. */
module BatchEvaluator {
  import opened SqlValues
  import opened Expressions
  import opened Selection
  import opened BatchIR
  import opened BatchDivision
  import opened BatchSteps
  import opened BatchMeaning
  import opened BatchColumns
  import opened BatchCodegen
  import R = ExpressionCodegen
  import B = BlockIR

  /** Run a batch function and copy its result out; nothing if a kernel reported an error. */
  method Evaluate(f: BatchFunction, x: Call, ghost schema: seq<Type>, ghost ov: bool, e: Expr)
                  returns (out: Option<seq<Arg>>)
    requires WellTyped(e, schema) && BatchImplements(schema, ov, f, e) && CallOk(x, schema)
    ensures out.None? <==> exists j | 0 <= j < |x.rows| :: RowFaults(x, schema, ov, e, j)
    ensures out.Some? ==> |out.value| == |x.rows|
    ensures out.Some? ==>
      forall j | 0 <= j < |x.rows| ::
        ArgOk(TypeOf(e), out.value[j]) && SqlOf(TypeOf(e), out.value[j]) == RowSem(x, schema, ov, e, j)
  {
    hide Run, CallOk, RowSem, RowFaults, LenOk;
    assert BatchReturns(x, schema, ov, f, e);
    match Run(x, f.code, EMPTY)
    case Ran(m) =>
      ghost var args := DenotesArgs(m, TypeOf(e), f.result, |x.rows|, ColumnSem(schema, ov, e)(x));
      out := Read(m, TypeOf(e), f.result, |x.rows|);
    case _ =>
      out := None;
  }

  /** Where the two back ends evaluate the tree alike, a cell of the batch result shows what the compiled row
      function returns for that row. */
  lemma BackEndsReturnTheSame(x: Call, schema: seq<Type>, ov: bool, e: Expr, f: BatchFunction, blocks: seq<B.Block>,
                              m: Mem, j: nat, s: B.State, u: B.State)
    requires WellTyped(e, schema) && BatchImplements(schema, ov, f, e) && R.Implements(schema, ov, blocks, e)
    requires CallOk(x, schema) && Run(x, f.code, EMPTY) == Ran(m) && j < |x.rows|
    requires ContextOk(x.batch.At(x.rows[j]), schema) && ModulusOk(x.batch.kernels) &&
      Alike(x.batch.At(x.rows[j]), schema, ov, e) && s.block == 0 && s.idx == 0
    requires B.Reaches(x.batch.At(x.rows[j]), blocks, s, u) && B.Step(x.batch.At(x.rows[j]), blocks, u).None?
    ensures Read(m, TypeOf(e), f.result, |x.rows|).Some?
    ensures R.Returns(blocks, u, TypeOf(e), SqlOf(TypeOf(e), Read(m, TypeOf(e), f.result, |x.rows|).value[j]))
  {
    hide Run, CallOk, ContextOk, R.Implements, Alike, ModulusOk, B.Step, B.Reaches, R.Returns;
    assert BatchReturns(x, schema, ov, f, e);
    var ctx := x.batch.At(x.rows[j]);
    SemIs(schema, ov, e, x, j);
    BackEndsAgree(ctx, schema, ov, e);
    R.RunMeansEval(ctx, schema, ov, blocks, e, s, u);
  }

  // ---------- filtering ----------

  function AllRows(n: nat): seq<int> {
    seq(n, i => i)
  }

  /** The rows below `n` with these flags set. */
  predicate Listed(rows: seq<int>, flags: seq<bool>, n: nat)
    requires n <= |flags|
  {
    Increasing(rows) && Within(rows, n) && |rows| <= n && forall j | 0 <= j < n :: j in rows <==> flags[j]
  }

  lemma ListedMore(rows: seq<int>, flags: seq<bool>, n: nat)
    requires n < |flags| && Listed(rows, flags, n)
    ensures Listed(if flags[n] then rows + [n] else rows, flags, n + 1)
  {
    if flags[n] {
      forall j | 0 <= j < n + 1 ensures j in rows + [n] <==> flags[j] {}
    }
  }

  ghost function Trues(x: Call, schema: seq<Type>, ov: bool, e: Expr): (r: seq<bool>)
    requires CallOk(x, schema) && WellTyped(e, schema)
    ensures |r| == |x.rows|
  {
    seq(|x.rows|, j requires 0 <= j < |x.rows| => RowSem(x, schema, ov, e, j) == TRUE)
  }

  /** Evaluate the predicate on all rows, then list the rows on which it is true and not null. */
  method Filter(f: BatchFunction, batch: Batch, ghost schema: seq<Type>, ghost ov: bool, e: Expr, results: array<int>)
                returns (selected: Option<nat>)
    requires WellTyped(e, schema) && TypeOf(e) == Boolean && BatchImplements(schema, ov, f, e)
    requires BatchOk(batch, schema) && DivisionOk(batch.kernels) && batch.rowCount <= results.Length
    modifies results
    ensures CallOk(Call(batch, AllRows(batch.rowCount)), schema)
    ensures var x := Call(batch, AllRows(batch.rowCount));
      && (selected.None? <==> exists j | 0 <= j < batch.rowCount :: RowFaults(x, schema, ov, e, j))
      && (selected.Some? ==>
        selected.value <= batch.rowCount && Listed(results[..selected.value], Trues(x, schema, ov, e), batch.rowCount))
  {
    hide BatchOk, RowSem, RowFaults, BatchImplements, WellTyped, Trues, LenOk, Listed;
    var x := Call(batch, AllRows(batch.rowCount));
    var out := Evaluate(f, x, schema, ov, e);
    if out.None? {
      return None;
    }
    ghost var flags := Trues(x, schema, ov, e);
    NoneListed(flags);
    var count := 0;
    for i := 0 to batch.rowCount
      invariant count <= i && Listed(results[..count], flags, i)
    {
      TrueAt(x, schema, ov, e, out.value[i], i);
      ListedMore(results[..count], flags, i);
      if out.value[i].data.b && !out.value[i].isNull {
        results[count] := i;
        assert results[..count + 1] == results[..count] + [i];
        count := count + 1;
      }
    }
    selected := Some(count);
  }

  lemma NoneListed(flags: seq<bool>)
    ensures Listed([], flags, 0)
  {
  }

  lemma TrueAt(x: Call, schema: seq<Type>, ov: bool, e: Expr, a: Arg, j: nat)
    requires CallOk(x, schema) && WellTyped(e, schema) && j < |x.rows| && ArgOk(Boolean, a) &&
      SqlOf(Boolean, a) == RowSem(x, schema, ov, e, j)
    ensures a.data.VBool? && Trues(x, schema, ov, e)[j] == (a.data.b && !a.isNull)
  {
    hide RowSem, CallOk;
  }

  /** Both back ends select the same rows of a batch: no IN that only passes through AND and OR need be decided. */
  lemma FiltersAgree(batch: Batch, schema: seq<Type>, ov: bool, e: Expr, rows: seq<int>)
    requires WellTyped(e, schema) && BatchOk(batch, schema) && DivisionOk(batch.kernels) && ModulusOk(batch.kernels)
    requires CallOk(Call(batch, AllRows(batch.rowCount)), schema)
    requires Listed(rows, Trues(Call(batch, AllRows(batch.rowCount)), schema, ov, e), batch.rowCount)
    requires forall row | 0 <= row < batch.rowCount ::
      ContextOk(batch.At(row), schema) && SelectsAlike(batch.At(row), schema, ov, e)
    ensures rows == Passing(batch, schema, ov, e, batch.rowCount)
  {
    hide BatchOk, CallOk, WellTyped, ContextOk, SelectsAlike, DivisionOk, ModulusOk, Passing;
    var x, n := Call(batch, AllRows(batch.rowCount)), batch.rowCount;
    var passing := Passing(batch, schema, ov, e, n);
    PassingIs(batch, schema, ov, e, n);
    forall row | 0 <= row < n ensures row in rows <==> row in passing {
      SelectionsAgree(batch.At(row), schema, ov, e);
      SemIs(schema, ov, e, x, row);
    }
    forall row ensures row in rows <==> row in passing {
      assert row in rows ==> 0 <= row < n;
      assert row in passing ==> 0 <= row < n;
    }
    IncreasingUnique(rows, passing);
  }

  /** So a filter whose INs all stand under ANDs and ORs only selects the same rows of every batch that its remainders
      survive. */
  lemma PositiveFiltersAgree(batch: Batch, schema: seq<Type>, ov: bool, e: Expr, rows: seq<int>)
    requires WellTyped(e, schema) && PositiveIns(e) && BatchOk(batch, schema) && DivisionOk(batch.kernels) &&
      ModulusOk(batch.kernels)
    requires CallOk(Call(batch, AllRows(batch.rowCount)), schema)
    requires Listed(rows, Trues(Call(batch, AllRows(batch.rowCount)), schema, ov, e), batch.rowCount)
    requires forall row | 0 <= row < batch.rowCount ::
      ContextOk(batch.At(row), schema) && AllRemaindersKept(batch.At(row), schema, ov, e)
    ensures rows == Passing(batch, schema, ov, e, batch.rowCount)
  {
    hide BatchOk, CallOk, WellTyped, ContextOk, SelectsAlike, AllRemaindersKept, DivisionOk, ModulusOk, Passing, Listed;
    forall row | 0 <= row < batch.rowCount ensures SelectsAlike(batch.At(row), schema, ov, e) {
      PositiveSelects(batch.At(row), schema, ov, e);
    }
    FiltersAgree(batch, schema, ov, e, rows);
  }
}
