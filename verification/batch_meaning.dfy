/** What the batch back end computes. It parts from the row back end in IN, never NULL here, and in MOD. */
module BatchMeaning {
  import opened SqlValues
  import opened Expressions
  import opened BatchDivision

  /** A batch IN is false where SQL says NULL. */
  ghost function BatchInSql(x: Sql, list: seq<Sql>): Sql {
    Value(VBool(x.Value? && x in list))
  }

  predicate Divides(op: BinaryOp) {
    op == Arith(DIV) || op == Arith(MOD)
  }

  /** Divisions go through kernels of their own. */
  function BatchBinarySql(k: Kernels, op: BinaryOp, t: Type, a: Sql, b: Sql): Sql {
    if Divides(op) then ArithSql(BatchKernels(k), op.arith, t, a, b) else BinarySql(k, op, t, a, b)
  }

  /** The value the batch back end gives a tree on a row. */
  ghost function BatchEval(ctx: Context, schema: seq<Type>, ov: bool, e: Expr): Sql
    requires ContextOk(ctx, schema) && WellTyped(e, schema)
    decreases e, 1
  {
    match e
    case Literal(_, isNull, data) => if isNull then Null else Value(data)
    case Field(ty, col) => ctx.columns[col].SqlAt(ty, ctx.row)
    case Not(x) => KleeneNot(BatchEval(ctx, schema, ov, x))
    case Binary(op, l, r) =>
      BatchBinarySql(ctx.kernels, op, TypeOf(l), BatchEval(ctx, schema, ov, l), BatchEval(ctx, schema, ov, r))
    case In(es) => BatchInSql(BatchEval(ctx, schema, ov, es[0]), BatchEvals(ctx, schema, ov, es[1..], e))
    case Between(v, lo, hi) =>
      BetweenSql(ctx.kernels, BatchEval(ctx, schema, ov, v), BatchEval(ctx, schema, ov, lo),
        BatchEval(ctx, schema, ov, hi))
    case If(c, t, f) =>
      if BatchEval(ctx, schema, ov, c) == TRUE then BatchEval(ctx, schema, ov, t) else BatchEval(ctx, schema, ov, f)
    case Switch(ws, els) => BatchWhens(ctx, schema, ov, ws, els, e, 0)
    case Coalesce(a, b) =>
      var x := BatchEval(ctx, schema, ov, a);
      if x.Null? then BatchEval(ctx, schema, ov, b) else x
    case IsNull(x) => Value(VBool(BatchEval(ctx, schema, ov, x).Null?))
    case Func(sig, args) => FuncSql(ctx.kernels, sig, ov && sig.hasNullVariant, BatchEvals(ctx, schema, ov, args, e))
  }

  ghost function BatchEvals(ctx: Context, schema: seq<Type>, ov: bool, es: seq<Expr>, e: Expr): (r: seq<Sql>)
    requires ContextOk(ctx, schema) && WellTyped(e, schema)
    requires (e.In? && es == e.arguments[1..]) || (e.Func? && es == e.args)
    ensures |r| == |es|
    decreases e, 0, 0
  {
    seq(|es|, i requires 0 <= i < |es| => assert e.In? ==>
      es[i] == e.arguments[i + 1]; BatchEval(ctx, schema, ov, es[i]))
  }

  ghost function BatchWhens(ctx: Context, schema: seq<Type>, ov: bool, ws: seq<(Expr, Expr)>, els: Expr, e: Expr,
                            i: nat): Sql
    requires ContextOk(ctx, schema) && e == Switch(ws, els) && WellTyped(e, schema) && i <= |ws|
    decreases e, 0, |ws| - i
  {
    if i == |ws| then BatchEval(ctx, schema, ov, els)
    else if BatchEval(ctx, schema, ov, ws[i].0) == TRUE then BatchEval(ctx, schema, ov, ws[i].1)
    else BatchWhens(ctx, schema, ov, ws, els, e, i + 1)
  }

  /** Evaluating the tree on this row reports an error: somewhere in it, in a branch taken or not, a value is
      divided by zero. */
  ghost predicate Faults(ctx: Context, schema: seq<Type>, ov: bool, e: Expr)
    requires ContextOk(ctx, schema) && WellTyped(e, schema)
  {
    match e
    case Literal(_, _, _) => false
    case Field(_, _) => false
    case Not(x) => Faults(ctx, schema, ov, x)
    case IsNull(x) => Faults(ctx, schema, ov, x)
    case Binary(op, l, r) =>
      || Faults(ctx, schema, ov, l) || Faults(ctx, schema, ov, r)
      || (Divides(op) && BatchEval(ctx, schema, ov, l).Value? && BatchEval(ctx, schema, ov, r) == Value(VInt(0)))
    case In(es) => exists i | 0 <= i < |es| :: Faults(ctx, schema, ov, es[i])
    case Between(v, lo, hi) => Faults(ctx, schema, ov, v) || Faults(ctx, schema, ov, lo) || Faults(ctx, schema, ov, hi)
    case If(c, t, f) => Faults(ctx, schema, ov, c) || Faults(ctx, schema, ov, t) || Faults(ctx, schema, ov, f)
    case Switch(ws, els) =>
      Faults(ctx, schema, ov, els) || exists i | 0 <= i < |ws| ::
        Faults(ctx, schema, ov, ws[i].0) || Faults(ctx, schema, ov, ws[i].1)
    case Coalesce(a, b) => Faults(ctx, schema, ov, a) || Faults(ctx, schema, ov, b)
    case Func(_, args) => exists i | 0 <= i < |args| :: Faults(ctx, schema, ov, args[i])
  }

  // ---------- against the row back end, node by node ----------

  /** When SQL gives an IN a value. */
  ghost predicate Decided(x: Sql, list: seq<Sql>) {
    x.Value? && (x in list || Null !in list)
  }

  /** An IN whose operands agree agrees itself exactly when it is decided; otherwise SQL says NULL and the batch
      FALSE. */
  lemma InAgrees(ctx: Context, schema: seq<Type>, ov: bool, es: seq<Expr>)
    requires ContextOk(ctx, schema) && WellTyped(In(es), schema)
    requires forall i | 0 <= i < |es| :: BatchEval(ctx, schema, ov, es[i]) == Eval(ctx, schema, ov, es[i])
    ensures var x, list := Eval(ctx, schema, ov, es[0]), seq(|es| - 1,
      i requires 0 <= i < |es| - 1 => Eval(ctx, schema, ov, es[i + 1]));
      && (BatchEval(ctx, schema, ov, In(es)) == Eval(ctx, schema, ov, In(es)) <==> Decided(x, list))
      && (!Decided(x, list) ==> Eval(ctx, schema, ov, In(es)) == Null && BatchEval(ctx, schema, ov, In(es)) == FALSE)
      && (BatchEval(ctx, schema, ov, In(es)) == TRUE <==> Eval(ctx, schema, ov, In(es)) == TRUE)
  {
    var row := seq(|es| - 1, i requires 0 <= i < |es| - 1 => Eval(ctx, schema, ov, es[i + 1]));
    var batch := BatchEvals(ctx, schema, ov, es[1..], In(es));
    assert row == batch;
    assert Eval(ctx, schema, ov, In(es)) == InSql(Eval(ctx, schema, ov, es[0]), row);
    assert BatchEval(ctx, schema, ov, In(es)) == BatchInSql(BatchEval(ctx, schema, ov, es[0]), batch);
  }

  /** An element that agrees and equals the value decides an IN in both back ends, whatever the others do. */
  lemma InMatches(ctx: Context, schema: seq<Type>, ov: bool, es: seq<Expr>, i: nat)
    requires ContextOk(ctx, schema) && WellTyped(In(es), schema) && 0 < i < |es|
    requires BatchEval(ctx, schema, ov, es[0]) == Eval(ctx, schema, ov, es[0]) == Eval(ctx, schema, ov, es[i]) ==
      BatchEval(ctx, schema, ov, es[i])
    requires Eval(ctx, schema, ov, es[0]).Value?
    ensures BatchEval(ctx, schema, ov, In(es)) == Eval(ctx, schema, ov, In(es)) == TRUE
  {
    var row := seq(|es| - 1, i requires 0 <= i < |es| - 1 => Eval(ctx, schema, ov, es[i + 1]));
    var batch := BatchEvals(ctx, schema, ov, es[1..], In(es));
    assert row[i - 1] == batch[i - 1] == Eval(ctx, schema, ov, es[0]);
    assert Eval(ctx, schema, ov, In(es)) == InSql(Eval(ctx, schema, ov, es[0]), row);
    assert BatchEval(ctx, schema, ov, In(es)) == BatchInSql(BatchEval(ctx, schema, ov, es[0]), batch);
  }

  /** Rounding the operands does not change what a binary node computes. */
  predicate KeepsRemainder(op: BinaryOp, a: Sql, b: Sql) {
    op == Arith(MOD) && a.Value? && b.Value? && a.v.VInt? && b.v.VInt? && b.v.i != 0 ==> RemainderKept(a.v.i, b.v.i)
  }

  /** A binary node whose operands agree agrees itself exactly when its remainder, if it is one, survives rounding. */
  lemma BinaryAgrees(k: Kernels, op: BinaryOp, t: Type, a: Sql, b: Sql)
    requires ModulusOk(k)
    ensures BatchBinarySql(k, op, t, a, b) == BinarySql(k, op, t, a, b) <==> KeepsRemainder(op, a, b)
  {
    hide FloatRemainder, Remainder, RemainderKept;
    if op == Arith(MOD) && a.Value? && b.Value? && a.v.VInt? && b.v.VInt? && b.v.i != 0 {
      RemaindersAgree(a.v.i, b.v.i);
    }
  }

  lemma FuncAgrees(ctx: Context, schema: seq<Type>, ov: bool, sig: FnSig, args: seq<Expr>)
    requires ContextOk(ctx, schema) && WellTyped(Func(sig, args), schema)
    requires forall i | 0 <= i < |args| :: BatchEval(ctx, schema, ov, args[i]) == Eval(ctx, schema, ov, args[i])
    ensures BatchEval(ctx, schema, ov, Func(sig, args)) == Eval(ctx, schema, ov, Func(sig, args))
  {
    assert seq(|args|, i requires 0 <= i < |args| => Eval(ctx, schema, ov, args[i])) ==
      BatchEvals(ctx, schema, ov, args, Func(sig, args));
  }

  // ---------- against the row back end, whole trees ----------

  /** Every IN that has a say in the tree's value on this row is decided, and every such remainder survives rounding. */
  ghost predicate Alike(ctx: Context, schema: seq<Type>, ov: bool, e: Expr)
    requires ContextOk(ctx, schema) && WellTyped(e, schema)
    decreases e, 1
  {
    match e
    case Literal(_, _, _) => true
    case Field(_, _) => true
    case Not(x) => Alike(ctx, schema, ov, x)
    case IsNull(x) => Alike(ctx, schema, ov, x)
    case Binary(op, l, r) =>
      var a, b := Eval(ctx, schema, ov, l), Eval(ctx, schema, ov, r);
      || (Alike(ctx, schema, ov, l) && Alike(ctx, schema, ov, r) && KeepsRemainder(op, a, b))
      || (Alike(ctx, schema, ov, l) && Settles(op, a))
      || (Alike(ctx, schema, ov, r) && Settles(op, b))
    case In(es) =>
      var x := Eval(ctx, schema, ov, es[0]);
      && Alike(ctx, schema, ov, es[0]) && x.Value?
      && ((exists i | 0 < i < |es| :: Alike(ctx, schema, ov, es[i]) && Eval(ctx, schema, ov, es[i]) == x)
          || forall i | 0 < i < |es| :: Alike(ctx, schema, ov, es[i]) && Eval(ctx, schema, ov, es[i]).Value?)
    case Between(v, lo, hi) => Alike(ctx, schema, ov, v) && Alike(ctx, schema, ov, lo) && Alike(ctx, schema, ov, hi)
    case If(c, t, f) =>
      && SelectsAlike(ctx, schema, ov, c)
      && if Eval(ctx, schema, ov, c) == TRUE then Alike(ctx, schema, ov, t) else Alike(ctx, schema, ov, f)
    case Switch(ws, els) => AlikeWhens(ctx, schema, ov, ws, els, e, 0)
    case Coalesce(a, b) => Alike(ctx, schema, ov, a) && (Eval(ctx, schema, ov, a).Null? ==> Alike(ctx, schema, ov, b))
    case Func(_, args) => forall i | 0 <= i < |args| :: Alike(ctx, schema, ov, args[i])
  }

  ghost predicate AlikeWhens(ctx: Context, schema: seq<Type>, ov: bool, ws: seq<(Expr, Expr)>, els: Expr, e: Expr,
                             i: nat)
    requires ContextOk(ctx, schema) && e == Switch(ws, els) && WellTyped(e, schema) && i <= |ws|
    decreases e, 0, |ws| - i
  {
    if i == |ws| then Alike(ctx, schema, ov, els)
    else
      && SelectsAlike(ctx, schema, ov, ws[i].0)
      && if Eval(ctx, schema, ov, ws[i].0) == TRUE then Alike(ctx, schema, ov, ws[i].1)
         else AlikeWhens(ctx, schema, ov, ws, els, e, i + 1)
  }

  /** One operand settles the node, whatever the other is. */
  predicate Settles(op: BinaryOp, a: Sql) {
    (op.And? && a == FALSE) || (op.Or? && a == TRUE)
  }

  /** A filter, and a condition of an IF or a CASE, only asks for TRUE, and a NULL rejects a row as a FALSE does: an IN
      need not be decided where its value passes through ANDs, ORs and taken arms alone. */
  ghost predicate SelectsAlike(ctx: Context, schema: seq<Type>, ov: bool, e: Expr)
    requires ContextOk(ctx, schema) && WellTyped(e, schema)
    decreases e, 2
  {
    || Alike(ctx, schema, ov, e)
    || match e
       case In(es) =>
         && Alike(ctx, schema, ov, es[0])
         && (Eval(ctx, schema, ov, es[0]).Null? || forall i | 0 < i < |es| :: Alike(ctx, schema, ov, es[i]))
       case Binary(op, l, r) =>
         && (op.And? || op.Or?)
         && ((SelectsAlike(ctx, schema, ov, l) && SelectsAlike(ctx, schema, ov, r))
             || (SelectsAlike(ctx, schema, ov, l) && Decides(op, Eval(ctx, schema, ov, l)))
             || (SelectsAlike(ctx, schema, ov, r) && Decides(op, Eval(ctx, schema, ov, r))))
       case If(c, t, f) =>
         && SelectsAlike(ctx, schema, ov, c)
         && if Eval(ctx, schema, ov, c) == TRUE then SelectsAlike(ctx, schema, ov, t)
           else SelectsAlike(ctx, schema, ov, f)
       case Switch(ws, els) => WhensSelectAlike(ctx, schema, ov, ws, els, e, 0)
       case Coalesce(a, b) =>
         Alike(ctx, schema, ov, a) && (Eval(ctx, schema, ov, a).Null? ==> SelectsAlike(ctx, schema, ov, b))
       case _ => false
  }

  ghost predicate WhensSelectAlike(ctx: Context, schema: seq<Type>, ov: bool, ws: seq<(Expr, Expr)>, els: Expr, e: Expr,
                                   i: nat)
    requires ContextOk(ctx, schema) && e == Switch(ws, els) && WellTyped(e, schema) && i <= |ws|
    decreases e, 0, |ws| - i
  {
    if i == |ws| then SelectsAlike(ctx, schema, ov, els)
    else
      && SelectsAlike(ctx, schema, ov, ws[i].0)
      && if Eval(ctx, schema, ov, ws[i].0) == TRUE then SelectsAlike(ctx, schema, ov, ws[i].1)
         else WhensSelectAlike(ctx, schema, ov, ws, els, e, i + 1)
  }

  /** One operand decides whether the node is TRUE, whatever the other is. */
  predicate Decides(op: BinaryOp, a: Sql) {
    (op.And? && a != TRUE) || (op.Or? && a == TRUE)
  }

  /** There the two back ends mean the same. */
  lemma {:induction false} BackEndsAgree(ctx: Context, schema: seq<Type>, ov: bool, e: Expr)
    requires ContextOk(ctx, schema) && WellTyped(e, schema) && ModulusOk(ctx.kernels) && Alike(ctx, schema, ov, e)
    ensures BatchEval(ctx, schema, ov, e) == Eval(ctx, schema, ov, e)
    decreases e, 1
  {
    hide ContextOk, ModulusOk, SelectsAlike;
    match e
    case Literal(_, _, _) =>
    case Field(_, _) =>
    case Not(x) => BackEndsAgree(ctx, schema, ov, x);
    case IsNull(x) => BackEndsAgree(ctx, schema, ov, x);
    case Binary(op, l, r) => BinaryBackEnds(ctx, schema, ov, op, l, r);
    case In(es) => InBackEnds(ctx, schema, ov, es);
    case Between(v, lo, hi) =>
      BackEndsAgree(ctx, schema, ov, v);
      BackEndsAgree(ctx, schema, ov, lo);
      BackEndsAgree(ctx, schema, ov, hi);
    case If(c, t, f) =>
      SelectionsAgree(ctx, schema, ov, c);
      BackEndsAgree(ctx, schema, ov, if Eval(ctx, schema, ov, c) == TRUE then t else f);
    case Switch(ws, els) => WhensAgree(ctx, schema, ov, ws, els, e, 0);
    case Coalesce(a, b) =>
      BackEndsAgree(ctx, schema, ov, a);
      if Eval(ctx, schema, ov, a).Null? {
        BackEndsAgree(ctx, schema, ov, b);
      }
    case Func(sig, args) =>
      forall i | 0 <= i < |args| ensures BatchEval(ctx, schema, ov, args[i]) == Eval(ctx, schema, ov, args[i]) {
        BackEndsAgree(ctx, schema, ov, args[i]);
      }
      FuncAgrees(ctx, schema, ov, sig, args);
  }

  lemma {:induction false} BinaryBackEnds(ctx: Context, schema: seq<Type>, ov: bool, op: BinaryOp, l: Expr, r: Expr)
    requires ContextOk(ctx, schema) && WellTyped(Binary(op, l, r), schema) && ModulusOk(ctx.kernels)
    requires Alike(ctx, schema, ov, Binary(op, l, r))
    ensures BatchEval(ctx, schema, ov, Binary(op, l, r)) == Eval(ctx, schema, ov, Binary(op, l, r))
    decreases Binary(op, l, r), 0
  {
    hide ContextOk, ModulusOk, SelectsAlike;
    var a, b := Eval(ctx, schema, ov, l), Eval(ctx, schema, ov, r);
    if Alike(ctx, schema, ov, l) {
      BackEndsAgree(ctx, schema, ov, l);
    }
    if Alike(ctx, schema, ov, r) {
      BackEndsAgree(ctx, schema, ov, r);
    }
    BinaryAgrees(ctx.kernels, op, TypeOf(l), a, b);
  }

  lemma {:induction false} InBackEnds(ctx: Context, schema: seq<Type>, ov: bool, es: seq<Expr>)
    requires ContextOk(ctx, schema) && WellTyped(In(es), schema) && ModulusOk(ctx.kernels) &&
      Alike(ctx, schema, ov, In(es))
    ensures BatchEval(ctx, schema, ov, In(es)) == Eval(ctx, schema, ov, In(es))
    decreases In(es), 0
  {
    hide ContextOk, ModulusOk, SelectsAlike;
    BackEndsAgree(ctx, schema, ov, es[0]);
    var x := Eval(ctx, schema, ov, es[0]);
    if i: nat :| 0 < i < |es| && Alike(ctx, schema, ov, es[i]) && Eval(ctx, schema, ov, es[i]) == x {
      BackEndsAgree(ctx, schema, ov, es[i]);
      InMatches(ctx, schema, ov, es, i);
    } else {
      forall i | 0 <= i < |es| ensures BatchEval(ctx, schema, ov, es[i]) == Eval(ctx, schema, ov, es[i]) {
        BackEndsAgree(ctx, schema, ov, es[i]);
      }
      InAgrees(ctx, schema, ov, es);
    }
  }

  lemma {:induction false} WhensAgree(ctx: Context, schema: seq<Type>, ov: bool, ws: seq<(Expr, Expr)>, els: Expr,
                                      e: Expr, i: nat)
    requires ContextOk(ctx, schema) && e == Switch(ws, els) && WellTyped(e, schema) && i <= |ws|
    requires ModulusOk(ctx.kernels) && AlikeWhens(ctx, schema, ov, ws, els, e, i)
    ensures BatchWhens(ctx, schema, ov, ws, els, e, i) == EvalWhens(ctx, schema, ov, ws, els, e, i)
    decreases e, 0, |ws| - i
  {
    hide ContextOk, ModulusOk, SelectsAlike;
    if i == |ws| {
      BackEndsAgree(ctx, schema, ov, els);
    } else {
      SelectionsAgree(ctx, schema, ov, ws[i].0);
      if Eval(ctx, schema, ov, ws[i].0) == TRUE {
        BackEndsAgree(ctx, schema, ov, ws[i].1);
      } else {
        WhensAgree(ctx, schema, ov, ws, els, e, i + 1);
      }
    }
  }

  /** And where they select alike both say TRUE or neither does. */
  lemma {:induction false} SelectionsAgree(ctx: Context, schema: seq<Type>, ov: bool, e: Expr)
    requires ContextOk(ctx, schema) && WellTyped(e, schema) && ModulusOk(ctx.kernels) &&
      SelectsAlike(ctx, schema, ov, e)
    ensures BatchEval(ctx, schema, ov, e) == TRUE <==> Eval(ctx, schema, ov, e) == TRUE
    decreases e, 2
  {
    hide ContextOk, ModulusOk, Alike;
    if Alike(ctx, schema, ov, e) {
      BackEndsAgree(ctx, schema, ov, e);
    } else {
      match e
      case In(es) => InSelects(ctx, schema, ov, es);
      case Binary(op, l, r) => BinarySelects(ctx, schema, ov, op, l, r);
      case If(c, t, f) =>
        SelectionsAgree(ctx, schema, ov, c);
        SelectionsAgree(ctx, schema, ov, if Eval(ctx, schema, ov, c) == TRUE then t else f);
      case Switch(ws, els) => WhensSelect(ctx, schema, ov, ws, els, e, 0);
      case Coalesce(a, b) =>
        BackEndsAgree(ctx, schema, ov, a);
        if Eval(ctx, schema, ov, a).Null? {
          SelectionsAgree(ctx, schema, ov, b);
        }
    }
  }

  lemma {:induction false} BinarySelects(ctx: Context, schema: seq<Type>, ov: bool, op: BinaryOp, l: Expr, r: Expr)
    requires ContextOk(ctx, schema) && WellTyped(Binary(op, l, r), schema) && ModulusOk(ctx.kernels)
    requires !Alike(ctx, schema, ov, Binary(op, l, r)) && SelectsAlike(ctx, schema, ov, Binary(op, l, r))
    ensures BatchEval(ctx, schema, ov, Binary(op, l, r)) == TRUE <==> Eval(ctx, schema, ov, Binary(op, l, r)) == TRUE
    decreases Binary(op, l, r), 0
  {
    hide ContextOk, ModulusOk, Alike;
    if SelectsAlike(ctx, schema, ov, l) {
      SelectionsAgree(ctx, schema, ov, l);
    }
    if SelectsAlike(ctx, schema, ov, r) {
      SelectionsAgree(ctx, schema, ov, r);
    }
  }

  lemma {:induction false} InSelects(ctx: Context, schema: seq<Type>, ov: bool, es: seq<Expr>)
    requires ContextOk(ctx, schema) && WellTyped(In(es), schema) && ModulusOk(ctx.kernels) &&
      Alike(ctx, schema, ov, es[0])
    requires Eval(ctx, schema, ov, es[0]).Null? || forall i | 0 < i < |es| :: Alike(ctx, schema, ov, es[i])
    ensures BatchEval(ctx, schema, ov, In(es)) == TRUE <==> Eval(ctx, schema, ov, In(es)) == TRUE
    decreases In(es), 0
  {
    hide ContextOk, ModulusOk, Alike;
    BackEndsAgree(ctx, schema, ov, es[0]);
    if Eval(ctx, schema, ov, es[0]).Value? {
      forall i | 0 <= i < |es| ensures BatchEval(ctx, schema, ov, es[i]) == Eval(ctx, schema, ov, es[i]) {
        BackEndsAgree(ctx, schema, ov, es[i]);
      }
      InAgrees(ctx, schema, ov, es);
    }
  }

  lemma {:induction false} WhensSelect(ctx: Context, schema: seq<Type>, ov: bool, ws: seq<(Expr, Expr)>, els: Expr,
                                       e: Expr, i: nat)
    requires ContextOk(ctx, schema) && e == Switch(ws, els) && WellTyped(e, schema) && i <= |ws|
    requires ModulusOk(ctx.kernels) && WhensSelectAlike(ctx, schema, ov, ws, els, e, i)
    ensures BatchWhens(ctx, schema, ov, ws, els, e, i) == TRUE <==> EvalWhens(ctx, schema, ov, ws, els, e, i) == TRUE
    decreases e, 0, |ws| - i
  {
    hide ContextOk, ModulusOk, Alike, SelectsAlike;
    if i == |ws| {
      SelectionsAgree(ctx, schema, ov, els);
    } else {
      SelectionsAgree(ctx, schema, ov, ws[i].0);
      if Eval(ctx, schema, ov, ws[i].0) == TRUE {
        SelectionsAgree(ctx, schema, ov, ws[i].1);
      } else {
        WhensSelect(ctx, schema, ov, ws, els, e, i + 1);
      }
    }
  }

  // ---------- filters ----------

  function Children(e: Expr): (r: seq<Expr>)
    ensures forall i | 0 <= i < |r| :: r[i] < e
  {
    match e
    case Literal(_, _, _) => []
    case Field(_, _) => []
    case Not(x) => [x]
    case IsNull(x) => [x]
    case Binary(_, l, r) => [l, r]
    case In(es) => es
    case Between(v, lo, hi) => [v, lo, hi]
    case If(c, t, f) => [c, t, f]
    case Switch(ws, els) =>
      seq(|ws|, i requires 0 <= i < |ws| => ws[i].0) + seq(|ws|, i requires 0 <= i < |ws| => ws[i].1) + [els]
    case Coalesce(a, b) => [a, b]
    case Func(_, args) => args
  }

  lemma ChildrenTyped(e: Expr, schema: seq<Type>)
    requires WellTyped(e, schema)
    ensures forall i | 0 <= i < |Children(e)| :: WellTyped(Children(e)[i], schema)
  {
  }

  predicate InFree(e: Expr) {
    !e.In? && forall i | 0 <= i < |Children(e)| :: InFree(Children(e)[i])
  }

  /** INs occur only under ANDs and ORs up to the root. */
  predicate PositiveIns(e: Expr) {
    || InFree(e)
    || (e.In? && forall i | 0 <= i < |e.arguments| :: InFree(e.arguments[i]))
    || (e.Binary? && (e.op.And? || e.op.Or?) && PositiveIns(e.left) && PositiveIns(e.right))
  }

  /** Every remainder of the tree survives rounding on this row. */
  ghost predicate AllRemaindersKept(ctx: Context, schema: seq<Type>, ov: bool, e: Expr)
    requires ContextOk(ctx, schema) && WellTyped(e, schema)
  {
    ChildrenTyped(e, schema);
    && (e.Binary? ==> KeepsRemainder(e.op, Eval(ctx, schema, ov, e.left), Eval(ctx, schema, ov, e.right)))
    && forall i | 0 <= i < |Children(e)| :: AllRemaindersKept(ctx, schema, ov, Children(e)[i])
  }

  lemma {:induction false} InFreeAlike(ctx: Context, schema: seq<Type>, ov: bool, e: Expr)
    requires ContextOk(ctx, schema) && WellTyped(e, schema) && InFree(e) && AllRemaindersKept(ctx, schema, ov, e)
    ensures Alike(ctx, schema, ov, e)
  {
    hide ContextOk, KeepsRemainder;
    ChildrenTyped(e, schema);
    forall i | 0 <= i < |Children(e)| ensures Alike(ctx, schema, ov, Children(e)[i]) {
      InFreeAlike(ctx, schema, ov, Children(e)[i]);
    }
    ChildrenAlike(ctx, schema, ov, e);
  }

  lemma SwitchAlike(ctx: Context, schema: seq<Type>, ov: bool, e: Expr)
    requires ContextOk(ctx, schema) && WellTyped(e, schema) && e.Switch?
    requires forall i | 0 <= i < |Children(e)| ::
      WellTyped(Children(e)[i], schema) && Alike(ctx, schema, ov, Children(e)[i])
    ensures Alike(ctx, schema, ov, e)
  {
    hide ContextOk, SelectsAlike, Eval;
    var cs, ws, els := Children(e), e.whenClause, e.elseExpr;
    assert cs[2 * |ws|] == els;
    forall i | 0 <= i < |ws| ensures Alike(ctx, schema, ov, ws[i].0) && Alike(ctx, schema, ov, ws[i].1) {
      assert cs[i] == ws[i].0 && cs[|ws| + i] == ws[i].1;
    }
    WhensAlike(ctx, schema, ov, ws, els, e, 0);
  }

  lemma ChildrenAlike(ctx: Context, schema: seq<Type>, ov: bool, e: Expr)
    requires ContextOk(ctx, schema) && WellTyped(e, schema) && !e.In?
    requires forall i | 0 <= i < |Children(e)| ::
      WellTyped(Children(e)[i], schema) && Alike(ctx, schema, ov, Children(e)[i])
    requires e.Binary? ==> KeepsRemainder(e.op, Eval(ctx, schema, ov, e.left), Eval(ctx, schema, ov, e.right))
    ensures Alike(ctx, schema, ov, e)
  {
    hide ContextOk, KeepsRemainder;
    var cs := Children(e);
    match e
    case Literal(_, _, _) =>
    case Field(_, _) =>
    case Not(_) => assert Alike(ctx, schema, ov, cs[0]);
    case IsNull(_) => assert Alike(ctx, schema, ov, cs[0]);
    case Binary(_, _, _) => assert Alike(ctx, schema, ov, cs[0]) && Alike(ctx, schema, ov, cs[1]);
    case Between(_, _, _) =>
      assert Alike(ctx, schema, ov, cs[0]) && Alike(ctx, schema, ov, cs[1]) && Alike(ctx, schema, ov, cs[2]);
    case If(_, _, _) =>
      assert Alike(ctx, schema, ov, cs[0]) && Alike(ctx, schema, ov, cs[1]) && Alike(ctx, schema, ov, cs[2]);
    case Coalesce(_, _) => assert Alike(ctx, schema, ov, cs[0]) && Alike(ctx, schema, ov, cs[1]);
    case Func(_, args) =>
    case Switch(_, _) => SwitchAlike(ctx, schema, ov, e);
  }

  lemma {:induction false} WhensAlike(ctx: Context, schema: seq<Type>, ov: bool, ws: seq<(Expr, Expr)>, els: Expr,
                                      e: Expr, i: nat)
    requires ContextOk(ctx, schema) && e == Switch(ws, els) && WellTyped(e, schema) && i <= |ws| &&
      Alike(ctx, schema, ov, els)
    requires forall j | 0 <= j < |ws| :: Alike(ctx, schema, ov, ws[j].0) && Alike(ctx, schema, ov, ws[j].1)
    ensures AlikeWhens(ctx, schema, ov, ws, els, e, i)
    decreases |ws| - i
  {
    hide ContextOk;
    if i < |ws| {
      WhensAlike(ctx, schema, ov, ws, els, e, i + 1);
    }
  }

  /** With INs in positive position only, no IN needs to be decided. */
  lemma {:induction false} PositiveSelects(ctx: Context, schema: seq<Type>, ov: bool, e: Expr)
    requires ContextOk(ctx, schema) && WellTyped(e, schema) && PositiveIns(e) && AllRemaindersKept(ctx, schema, ov, e)
    ensures SelectsAlike(ctx, schema, ov, e)
  {
    hide ContextOk, KeepsRemainder, InFree, Alike;
    var cs := Children(e);
    ChildrenTyped(e, schema);
    if InFree(e) {
      InFreeAlike(ctx, schema, ov, e);
    } else if e.In? {
      forall i | 0 <= i < |e.arguments| ensures Alike(ctx, schema, ov, e.arguments[i]) {
        assert AllRemaindersKept(ctx, schema, ov, cs[i]);
        InFreeAlike(ctx, schema, ov, cs[i]);
      }
    } else {
      assert AllRemaindersKept(ctx, schema, ov, cs[0]) && AllRemaindersKept(ctx, schema, ov, cs[1]);
      PositiveSelects(ctx, schema, ov, e.left);
      PositiveSelects(ctx, schema, ov, e.right);
    }
  }

  // ---------- where they differ ----------

  /** `NOT (NULL IN (1))` is NULL in the row back end and TRUE in the batch back end, so a filter on it keeps no row
      in the one and every row in the other. */
  lemma InDiffers(ctx: Context, schema: seq<Type>, ov: bool)
    requires ContextOk(ctx, schema)
    ensures var e := Not(In([Literal(Int, true, VInt(0)), Literal(Int, false, VInt(1))]));
      WellTyped(e, schema) && Eval(ctx, schema, ov, e) == Null && BatchEval(ctx, schema, ov, e) == TRUE
  {
    var es := [Literal(Int, true, VInt(0)), Literal(Int, false, VInt(1))];
    assert WellTyped(es[0], schema) && WellTyped(es[1], schema);
    assert WellTyped(In(es), schema);
    InAgrees(ctx, schema, ov, es);
    assert Eval(ctx, schema, ov, es[0]) == Null;
    assert Eval(ctx, schema, ov, In(es)) == Null;
  }

  /** `9007199254740993 MOD 2` is 1 in the row back end and 0 in the batch back end, so a filter that compares it with 1
      keeps every row in the one and no row in the other. */
  lemma ModDiffers(ctx: Context, schema: seq<Type>, ov: bool)
    requires ContextOk(ctx, schema) && ModulusOk(ctx.kernels)
    ensures var e := Binary(Arith(MOD), Literal(Long, false, VInt(TWO_53 + 1)), Literal(Long, false, VInt(2)));
      && WellTyped(e, schema) && Eval(ctx, schema, ov, e) == Value(VInt(1)) &&
        BatchEval(ctx, schema, ov, e) == Value(VInt(0))
    ensures var e := Binary(Arith(MOD), Literal(Long, false, VInt(TWO_53 + 1)), Literal(Long, false, VInt(2)));
      var c := Binary(Compare(EQ), e, Literal(Long, false, VInt(1)));
      WellTyped(c, schema) && Eval(ctx, schema, ov, c) == TRUE && BatchEval(ctx, schema, ov, c) == FALSE
  {
    hide ContextOk, FloatRemainder, Remainder;
    RemaindersDiffer();
  }
}
