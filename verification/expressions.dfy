/** Expression trees, their static typing, and what SQL says they mean. Every back end is measured against `Eval`:
    Kleene logic for AND, OR and NOT, the null rules of IN, BETWEEN and the comparisons, and the null disciplines of
    registered functions. */
module Expressions {
  import opened SqlValues

  datatype BinaryOp = And | Or | Compare(cmp: CmpOp) | Arith(arith: ArithOp)

  datatype Expr =
    | Literal(ty: Type, isNull: bool, data: Val)
    | Field(ty: Type, col: nat)
    | Not(exp: Expr)
    | Binary(op: BinaryOp, left: Expr, right: Expr)
    | In(arguments: seq<Expr>)
    | Between(value: Expr, lower: Expr, upper: Expr)
    | If(condition: Expr, trueExpr: Expr, falseExpr: Expr)
    | Switch(whenClause: seq<(Expr, Expr)>, elseExpr: Expr)
    | Coalesce(value1: Expr, value2: Expr)
    | IsNull(operand: Expr)
    | Func(sig: FnSig, args: seq<Expr>)

  function TypeOf(e: Expr): Type {
    match e
    case Literal(ty, _, _) => ty
    case Field(ty, _) => ty
    case Binary(Arith(_), l, _) => TypeOf(l)
    case If(_, t, _) => TypeOf(t)
    case Switch(_, els) => TypeOf(els)
    case Coalesce(a, _) => TypeOf(a)
    case Func(sig, _) => sig.ret
    case _ => Boolean
  }

  /** What the planner hands over: operand types agree, an IN has a list and a CASE has a branch. */
  predicate WellTyped(e: Expr, schema: seq<Type>) {
    match e
    case Literal(ty, _, data) => Typed(ty, data)
    case Field(ty, col) => col < |schema| && schema[col] == ty
    case Not(x) => WellTyped(x, schema) && TypeOf(x) == Boolean
    case Binary(op, l, r) =>
      && WellTyped(l, schema) && WellTyped(r, schema) && TypeOf(l) == TypeOf(r)
      && (op.And? || op.Or? ==> TypeOf(l) == Boolean)
    case In(es) =>
      && |es| >= 2
      && (forall i | 0 <= i < |es| :: WellTyped(es[i], schema))
      && (forall i | 0 <= i < |es| :: TypeOf(es[i]) == TypeOf(es[0]))
    case Between(v, lo, hi) =>
      && WellTyped(v, schema) && WellTyped(lo, schema) && WellTyped(hi, schema)
      && TypeOf(lo) == TypeOf(v) && TypeOf(hi) == TypeOf(v)
    case If(c, t, f) =>
      && WellTyped(c, schema) && WellTyped(t, schema) && WellTyped(f, schema)
      && TypeOf(c) == Boolean && TypeOf(t) == TypeOf(f)
    case Switch(ws, els) =>
      && |ws| >= 1 && WellTyped(els, schema)
      && (forall i | 0 <= i < |ws| :: WellTyped(ws[i].0, schema) && WellTyped(ws[i].1, schema))
      && (forall i | 0 <= i < |ws| :: TypeOf(ws[i].0) == Boolean && TypeOf(ws[i].1) == TypeOf(els))
    case Coalesce(a, b) => WellTyped(a, schema) && WellTyped(b, schema) && TypeOf(a) == TypeOf(b)
    case IsNull(x) => WellTyped(x, schema)
    case Func(sig, args) =>
      && |sig.params| == |args|
      && (forall i | 0 <= i < |args| :: WellTyped(args[i], schema))
      && (forall i | 0 <= i < |args| :: TypeOf(args[i]) == sig.params[i])
  }

  /** A row of a batch, with the kernels. */
  datatype Context = Context(kernels: Kernels, columns: seq<Vector>, row: nat)

  ghost predicate ContextOk(ctx: Context, schema: seq<Type>) {
    && KernelsOk(ctx.kernels)
    && |ctx.columns| == |schema|
    && forall c | 0 <= c < |schema| :: ctx.columns[c].Valid(schema[c]) && ctx.row < |ctx.columns[c].nulls|
  }

  // ---------- three-valued logic ----------

  const TRUE := Value(VBool(true))
  const FALSE := Value(VBool(false))

  /** Kleene conjunction and disjunction. */
  function KleeneAnd(a: Sql, b: Sql): Sql {
    if a == FALSE || b == FALSE then FALSE else if a == TRUE && b == TRUE then TRUE else Null
  }

  function KleeneOr(a: Sql, b: Sql): Sql {
    if a == TRUE || b == TRUE then TRUE else if a == FALSE && b == FALSE then FALSE else Null
  }

  function KleeneNot(a: Sql): Sql {
    if a == TRUE then FALSE else if a == FALSE then TRUE else Null
  }

  function CompareVal(k: Kernels, op: CmpOp, a: Val, b: Val): bool {
    match (a, b)
    case (VInt(x), VInt(y)) => CompareInt(op, x, y)
    case (VPtr(x), VPtr(y)) =>
      if op == EQ then x == y else if op == NEQ then x != y else CompareInt(op, k.order(x, y), 0)
    case _ => false
  }

  function CompareSql(k: Kernels, op: CmpOp, a: Sql, b: Sql): Sql {
    if a.Null? || b.Null? then Null else Value(VBool(CompareVal(k, op, a.v, b.v)))
  }

  function ArithSql(k: Kernels, op: ArithOp, t: Type, a: Sql, b: Sql): Sql {
    if a.Value? && b.Value? && a.v.VInt? && b.v.VInt? then
      var (r, isNull) := k.arith(op, t, a.v.i, b.v.i);
      if TakesNullFlag(op) && isNull then Null else Value(VInt(r))
    else
      Null
  }

  /** `x IN (list)`: true on a match, else NULL when x or any list element is NULL, else false. */
  ghost function InSql(x: Sql, list: seq<Sql>): Sql {
    if x.Value? && x in list then TRUE
    else if x.Null? || Null in list then Null
    else FALSE
  }

  /** Null as soon as any operand is null, even when the other bound already fails. */
  function BetweenSql(k: Kernels, x: Sql, lo: Sql, hi: Sql): Sql {
    if x.Null? || lo.Null? || hi.Null? then Null
    else Value(VBool(CompareVal(k, LTE, lo.v, x.v) && CompareVal(k, LTE, x.v, hi.v)))
  }

  /** What standard SQL makes of BETWEEN. */
  function BetweenAsAnd(k: Kernels, x: Sql, lo: Sql, hi: Sql): Sql {
    KleeneAnd(CompareSql(k, LTE, lo, x), CompareSql(k, LTE, x, hi))
  }

  /** One bound is NULL, and the value is on the wrong side of the other. */
  predicate FailsBesideNull(k: Kernels, x: Sql, lo: Sql, hi: Sql) {
    || (lo.Null? && CompareSql(k, LTE, x, hi) == FALSE)
    || (hi.Null? && CompareSql(k, LTE, lo, x) == FALSE)
  }

  /** That is the only case in which BETWEEN is not the conjunction of its comparisons: there it is NULL for FALSE. */
  lemma BetweenExactly(k: Kernels, x: Sql, lo: Sql, hi: Sql)
    ensures BetweenSql(k, x, lo, hi) == BetweenAsAnd(k, x, lo, hi) <==> !FailsBesideNull(k, x, lo, hi)
    ensures FailsBesideNull(k, x, lo, hi) ==> BetweenSql(k, x, lo, hi) == Null && BetweenAsAnd(k, x, lo, hi) == FALSE
  {
    if x.Value? && lo.Value? && hi.Value? {
      assert BetweenSql(k, x, lo, hi) == Value(VBool(CompareVal(k, LTE, lo.v, x.v) && CompareVal(k, LTE, x.v, hi.v)));
    }
  }

  /** `5 BETWEEN 7 AND NULL` is such a case. */
  lemma BetweenDiffers(k: Kernels)
    ensures var x, lo := Value(VInt(5)), Value(VInt(7));
      BetweenSql(k, x, lo, Null) == Null && BetweenAsAnd(k, x, lo, Null) == FALSE
  {
    BetweenExactly(k, Value(VInt(5)), Value(VInt(7)), Null);
  }

  ghost function FuncSql(k: Kernels, sig: FnSig, variant: bool, args: seq<Sql>): Sql {
    if Strict(sig, variant) && Null in args then Null else k.meaning(sig, variant, args)
  }

  /** The meaning of a tree on a row. `overflowAsNull` is the session's overflow setting. */
  ghost function Eval(ctx: Context, schema: seq<Type>, overflowAsNull: bool, e: Expr): Sql
    requires ContextOk(ctx, schema) && WellTyped(e, schema)
    decreases e, 1
  {
    match e
    case Literal(ty, isNull, data) => if isNull then Null else Value(data)
    case Field(ty, col) => ctx.columns[col].SqlAt(ty, ctx.row)
    case Not(x) => KleeneNot(Eval(ctx, schema, overflowAsNull, x))
    case Binary(op, l, r) =>
      BinarySql(ctx.kernels, op, TypeOf(l), Eval(ctx, schema, overflowAsNull, l), Eval(ctx, schema, overflowAsNull, r))
    case In(es) =>
      InSql(Eval(ctx, schema, overflowAsNull, es[0]),
        seq(|es| - 1, i requires 0 <= i < |es| - 1 => Eval(ctx, schema, overflowAsNull, es[i + 1])))
    case Between(v, lo, hi) =>
      BetweenSql(ctx.kernels, Eval(ctx, schema, overflowAsNull, v), Eval(ctx, schema, overflowAsNull, lo),
        Eval(ctx, schema, overflowAsNull, hi))
    case If(c, t, f) =>
      if Eval(ctx, schema, overflowAsNull, c) == TRUE then Eval(ctx, schema, overflowAsNull, t)
        else Eval(ctx, schema, overflowAsNull, f)
    case Switch(ws, els) => EvalWhens(ctx, schema, overflowAsNull, ws, els, e, 0)
    case Coalesce(a, b) =>
      var x := Eval(ctx, schema, overflowAsNull, a);
      if x.Null? then Eval(ctx, schema, overflowAsNull, b) else x
    case IsNull(x) => Value(VBool(Eval(ctx, schema, overflowAsNull, x).Null?))
    case Func(sig, args) =>
      FuncSql(ctx.kernels, sig, overflowAsNull && sig.hasNullVariant,
        seq(|args|, i requires 0 <= i < |args| => Eval(ctx, schema, overflowAsNull, args[i])))
  }

  /** The branches of a CASE from the i-th on: the first true condition decides. */
  ghost function EvalWhens(ctx: Context, schema: seq<Type>, overflowAsNull: bool, ws: seq<(Expr, Expr)>, els: Expr,
                           e: Expr, i: nat): Sql
    requires ContextOk(ctx, schema) && e == Switch(ws, els) && WellTyped(e, schema) && i <= |ws|
    decreases e, 0, |ws| - i
  {
    if i == |ws| then Eval(ctx, schema, overflowAsNull, els)
    else if Eval(ctx, schema, overflowAsNull, ws[i].0) == TRUE then Eval(ctx, schema, overflowAsNull, ws[i].1)
    else EvalWhens(ctx, schema, overflowAsNull, ws, els, e, i + 1)
  }

  function BinarySql(k: Kernels, op: BinaryOp, t: Type, a: Sql, b: Sql): Sql {
    match op
    case And => KleeneAnd(a, b)
    case Or => KleeneOr(a, b)
    case Compare(c) => CompareSql(k, c, a, b)
    case Arith(o) => ArithSql(k, o, t, a, b)
  }
}
