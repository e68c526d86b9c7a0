/** The column a tree means over the rows of a call, node by node: the value of each row is `BatchEval` on that row,
    and a call fails when some row does. These lemmas restate the definitions of `BatchMeaning` for whole columns,
    as the compiler's proofs use them. */
module BatchColumns {
  import opened SqlValues
  import opened Expressions
  import opened Selection
  import opened BatchIR
  import opened BatchSteps
  import opened BatchMeaning
  import opened BatchProofs

  ghost function RowSem(x: Call, schema: seq<Type>, ov: bool, e: Expr, j: nat): Sql
    requires CallOk(x, schema) && WellTyped(e, schema) && j < |x.rows|
  {
    RowOk(x.batch, schema, x.rows[j]);
    BatchEval(x.batch.At(x.rows[j]), schema, ov, e)
  }

  ghost predicate RowFaults(x: Call, schema: seq<Type>, ov: bool, e: Expr, j: nat)
    requires CallOk(x, schema) && WellTyped(e, schema) && j < |x.rows|
  {
    RowOk(x.batch, schema, x.rows[j]);
    Faults(x.batch.At(x.rows[j]), schema, ov, e)
  }

  ghost function ColumnSem(schema: seq<Type>, ov: bool, e: Expr): Call -> seq<Sql>
    requires WellTyped(e, schema)
  {
    (x: Call) => if CallOk(x, schema) then seq(|x.rows|, j requires 0 <= j < |x.rows| => RowSem(x, schema, ov, e, j))
      else []
  }

  /** Some row reports an error. */
  ghost function FaultSem(schema: seq<Type>, ov: bool, e: Expr): Call -> bool
    requires WellTyped(e, schema)
  {
    (x: Call) => CallOk(x, schema) && exists j | 0 <= j < |x.rows| :: RowFaults(x, schema, ov, e, j)
  }

  ghost function G(schema: seq<Type>, ov: bool, e: Expr, v: Vec, lo: nat, hi: nat): Goal
    requires WellTyped(e, schema)
  {
    Goal(TypeOf(e), v, lo, hi, ColumnSem(schema, ov, e))
  }

  lemma GColumn(schema: seq<Type>, ov: bool, e: Expr, v: Vec, lo: nat, hi: nat)
    requires WellTyped(e, schema)
    ensures ColumnOf(schema, G(schema, ov, e, v, lo, hi), TypeOf(e))
  {
  }

  lemma SemIs(schema: seq<Type>, ov: bool, e: Expr, x: Call, j: nat)
    requires WellTyped(e, schema) && CallOk(x, schema) && j < |x.rows| && ContextOk(x.batch.At(x.rows[j]), schema)
    ensures ColumnSem(schema, ov, e)(x)[j] == BatchEval(x.batch.At(x.rows[j]), schema, ov, e)
    ensures RowFaults(x, schema, ov, e, j) == Faults(x.batch.At(x.rows[j]), schema, ov, e)
  {
  }

  // ---------- errors ----------

  lemma NoFaults(schema: seq<Type>, ov: bool, e: Expr, x: Call)
    requires WellTyped(e, schema) && (e.Literal? || e.Field?)
    ensures !FaultSem(schema, ov, e)(x)
  {
  }

  lemma FaultsOne(schema: seq<Type>, ov: bool, e: Expr, a: Expr, x: Call)
    requires WellTyped(e, schema) && (e == Not(a) || e == IsNull(a)) && CallOk(x, schema)
    ensures FaultSem(schema, ov, e)(x) == FaultSem(schema, ov, a)(x)
  {
    forall j | 0 <= j < |x.rows| ensures RowFaults(x, schema, ov, e, j) == RowFaults(x, schema, ov, a, j) {}
  }

  lemma FaultsTwo(schema: seq<Type>, ov: bool, e: Expr, a: Expr, b: Expr, x: Call)
    requires WellTyped(e, schema) && CallOk(x, schema) && (e == Coalesce(a, b) ||
      (e.Binary? && !Divides(e.op) && a == e.left && b == e.right))
    ensures FaultSem(schema, ov, e)(x) == (FaultSem(schema, ov, a)(x) || FaultSem(schema, ov, b)(x))
  {
    forall j | 0 <= j < |x.rows| ensures RowFaults(x, schema, ov, e, j) ==
      (RowFaults(x, schema, ov, a, j) || RowFaults(x, schema, ov, b, j)) {}
  }

  lemma FaultsDivision(schema: seq<Type>, ov: bool, op: BinaryOp, l: Expr, r: Expr, x: Call)
    requires WellTyped(Binary(op, l, r), schema) && CallOk(x, schema) && Divides(op)
    ensures FaultSem(schema, ov, Binary(op, l, r))(x)
         == (FaultSem(schema, ov, l)(x) || FaultSem(schema, ov, r)(x) ||
           ZeroDivides(ColumnSem(schema, ov, l)(x), ColumnSem(schema, ov, r)(x)))
  {
    var a, b := ColumnSem(schema, ov, l)(x), ColumnSem(schema, ov, r)(x);
    forall j | 0 <= j < |x.rows|
      ensures RowFaults(x, schema, ov, Binary(op, l, r), j)
           == (RowFaults(x, schema, ov, l, j) || RowFaults(x, schema, ov, r, j) ||
             (a[j].Value? && b[j] == Value(VInt(0))))
    {
      RowOk(x.batch, schema, x.rows[j]);
      SemIs(schema, ov, l, x, j);
      SemIs(schema, ov, r, x, j);
    }
  }

  lemma FaultsThree(schema: seq<Type>, ov: bool, e: Expr, a: Expr, b: Expr, c: Expr, x: Call)
    requires WellTyped(e, schema) && CallOk(x, schema) && (e == If(a, b, c) || e == Between(a, b, c))
    ensures FaultSem(schema, ov, e)(x) == (FaultSem(schema, ov, a)(x) || FaultSem(schema, ov, b)(x) ||
      FaultSem(schema, ov, c)(x))
  {
    forall j | 0 <= j < |x.rows|
      ensures RowFaults(x, schema, ov, e, j) == (RowFaults(x, schema, ov, a, j) || RowFaults(x, schema, ov, b, j) ||
        RowFaults(x, schema, ov, c, j)) {}
  }

  // ---------- values ----------

  lemma SemOfNot(schema: seq<Type>, ov: bool, a: Expr)
    requires WellTyped(Not(a), schema)
    ensures forall x, j | CallOk(x, schema) && 0 <= j < |x.rows| ::
      ColumnSem(schema, ov, Not(a))(x)[j] == KleeneNot(ColumnSem(schema, ov, a)(x)[j])
  {
  }

  lemma SemOfIsNull(schema: seq<Type>, ov: bool, a: Expr)
    requires WellTyped(IsNull(a), schema)
    ensures forall x, j | CallOk(x, schema) && 0 <= j < |x.rows| ::
      ColumnSem(schema, ov, IsNull(a))(x)[j] == Value(VBool(ColumnSem(schema, ov, a)(x)[j].Null?))
  {
  }

  lemma SemOfBinary(schema: seq<Type>, ov: bool, op: BinaryOp, l: Expr, r: Expr)
    requires WellTyped(Binary(op, l, r), schema)
    ensures forall x, j | CallOk(x, schema) && 0 <= j < |x.rows| :: (ColumnSem(schema, ov, Binary(op, l, r))(x)[j] ==
      BatchBinarySql(x.batch.kernels, op, TypeOf(l), ColumnSem(schema, ov, l)(x)[j], ColumnSem(schema, ov, r)(x)[j]))
  {
  }

  lemma SemOfBetween(schema: seq<Type>, ov: bool, v: Expr, lo: Expr, hi: Expr)
    requires WellTyped(Between(v, lo, hi), schema)
    ensures forall x, j | CallOk(x, schema) && 0 <= j < |x.rows| :: (ColumnSem(schema, ov, Between(v, lo, hi))(x)[j] ==
      BetweenSql(x.batch.kernels, ColumnSem(schema, ov, v)(x)[j], ColumnSem(schema, ov, lo)(x)[j],
        ColumnSem(schema, ov, hi)(x)[j]))
  {
  }

  lemma SemOfIf(schema: seq<Type>, ov: bool, c: Expr, t: Expr, f: Expr)
    requires WellTyped(If(c, t, f), schema)
    ensures forall x, j | CallOk(x, schema) && 0 <= j < |x.rows| :: (ColumnSem(schema, ov, If(c, t, f))(x)[j] ==
      (if ColumnSem(schema, ov, c)(x)[j] == TRUE then ColumnSem(schema, ov, t)(x)[j]
        else ColumnSem(schema, ov, f)(x)[j]))
  {
  }

  lemma SemOfCoalesce(schema: seq<Type>, ov: bool, a: Expr, b: Expr)
    requires WellTyped(Coalesce(a, b), schema)
    ensures forall x, j | CallOk(x, schema) && 0 <= j < |x.rows| :: (ColumnSem(schema, ov, Coalesce(a, b))(x)[j] ==
      (if ColumnSem(schema, ov, a)(x)[j].Null? then ColumnSem(schema, ov, b)(x)[j] else ColumnSem(schema, ov, a)(x)[j]))
  {
  }

  lemma SemOfLiteral(schema: seq<Type>, ov: bool, ty: Type, isNull: bool, data: Val)
    requires WellTyped(Literal(ty, isNull, data), schema)
    ensures forall x, j | CallOk(x, schema) && 0 <= j < |x.rows| ::
      ColumnSem(schema, ov, Literal(ty, isNull, data))(x)[j] == (if isNull then Null else Value(data))
  {
  }

  lemma SemOfField(schema: seq<Type>, ov: bool, ty: Type, col: nat)
    requires WellTyped(Field(ty, col), schema)
    ensures forall x, j | CallOk(x, schema) && 0 <= j < |x.rows| ::
      ColumnSem(schema, ov, Field(ty, col))(x)[j] == x.batch.columns[col].SqlAt(ty, x.rows[j])
  {
  }

  /** Goals that mean the given trees. */
  ghost predicate Mean(schema: seq<Type>, ov: bool, gs: seq<Goal>, es: seq<Expr>) {
    && |gs| == |es| && (forall i | 0 <= i < |es| :: WellTyped(es[i], schema))
    && forall i | 0 <= i < |es| :: gs[i].Goal? && gs[i].t == TypeOf(es[i]) && gs[i].sem == ColumnSem(schema, ov, es[i])
  }

  lemma SemsAre(schema: seq<Type>, ov: bool, gs: seq<Goal>, es: seq<Expr>, e: Expr, x: Call, j: nat)
    requires Mean(schema, ov, gs, es) && CallOk(x, schema) && j < |x.rows| && ContextOk(x.batch.At(x.rows[j]), schema)
    requires WellTyped(e, schema) && ((e.In? && es == e.arguments[1..]) || (e.Func? && es == e.args))
    ensures SemsAt(gs, x, j) == BatchEvals(x.batch.At(x.rows[j]), schema, ov, es, e)
  {
    hide CallOk, ContextOk;
    forall i | 0 <= i < |es| ensures SemsAt(gs, x, j)[i] == BatchEval(x.batch.At(x.rows[j]), schema, ov, es[i]) {
      SemIs(schema, ov, es[i], x, j);
      ColumnLength(schema, ov, es[i], x);
    }
  }

  lemma ColumnLength(schema: seq<Type>, ov: bool, e: Expr, x: Call)
    requires WellTyped(e, schema) && CallOk(x, schema)
    ensures |ColumnSem(schema, ov, e)(x)| == |x.rows|
  {
  }

  lemma SemOfIn(schema: seq<Type>, ov: bool, es: seq<Expr>, gs: seq<Goal>)
    requires WellTyped(In(es), schema) && Mean(schema, ov, gs, es[1..])
    ensures forall x, j | CallOk(x, schema) && 0 <= j < |x.rows| ::
      ColumnSem(schema, ov, In(es))(x)[j] == BatchInSql(ColumnSem(schema, ov, es[0])(x)[j], SemsAt(gs, x, j))
  {
    forall x, j | CallOk(x, schema) && 0 <= j < |x.rows|
      ensures ColumnSem(schema, ov, In(es))(x)[j] == BatchInSql(ColumnSem(schema, ov, es[0])(x)[j], SemsAt(gs, x, j))
    {
      RowOk(x.batch, schema, x.rows[j]);
      SemsAre(schema, ov, gs, es[1..], In(es), x, j);
      SemIs(schema, ov, In(es), x, j);
      SemIs(schema, ov, es[0], x, j);
    }
  }

  lemma SemOfFunc(schema: seq<Type>, ov: bool, sig: FnSig, args: seq<Expr>, gs: seq<Goal>)
    requires WellTyped(Func(sig, args), schema) && Mean(schema, ov, gs, args)
    ensures forall x, j | CallOk(x, schema) && 0 <= j < |x.rows| ::
      ColumnSem(schema, ov, Func(sig, args))(x)[j] == FuncSql(x.batch.kernels, sig, ov &&
        sig.hasNullVariant, SemsAt(gs, x, j))
  {
    forall x, j | CallOk(x, schema) && 0 <= j < |x.rows|
      ensures ColumnSem(schema, ov, Func(sig, args))(x)[j] ==
        FuncSql(x.batch.kernels, sig, ov && sig.hasNullVariant, SemsAt(gs, x, j))
    {
      RowOk(x.batch, schema, x.rows[j]);
      SemsAre(schema, ov, gs, args, Func(sig, args), x, j);
      SemIs(schema, ov, Func(sig, args), x, j);
    }
  }

  function Firsts(ws: seq<(Expr, Expr)>): seq<Expr> {
    seq(|ws|, i requires 0 <= i < |ws| => ws[i].0)
  }

  function Seconds(ws: seq<(Expr, Expr)>): seq<Expr> {
    seq(|ws|, i requires 0 <= i < |ws| => ws[i].1)
  }

  lemma SwitchTyped(schema: seq<Type>, ws: seq<(Expr, Expr)>, els: Expr)
    requires WellTyped(Switch(ws, els), schema)
    ensures WellTyped(els, schema) && forall i | 0 <= i < |ws| ::
      WellTyped(ws[i].0, schema) && WellTyped(ws[i].1, schema)
  {
  }

  lemma {:induction false} SemOfWhens(schema: seq<Type>, ov: bool, ws: seq<(Expr, Expr)>, els: Expr, cs: seq<Goal>,
                                      rs: seq<Goal>, x: Call, j: nat, i: nat)
    requires WellTyped(Switch(ws, els), schema) && Mean(schema, ov, cs, Firsts(ws)) &&
      Mean(schema, ov, rs, Seconds(ws)) && i <= |ws|
    requires CallOk(x, schema) && j < |x.rows| && ContextOk(x.batch.At(x.rows[j]), schema)
    ensures FirstSql(SemsAt(cs, x, j), SemsAt(rs, x, j), ColumnSem(schema, ov, els)(x)[j], i)
         == BatchWhens(x.batch.At(x.rows[j]), schema, ov, ws, els, Switch(ws, els), i)
    decreases |ws| - i
  {
    hide CallOk, ContextOk, BatchEval, ColumnSem, RowSem, Faults, WellTyped;
    SwitchTyped(schema, ws, els);
    ColumnLength(schema, ov, els, x);
    if i == |ws| {
      SemIs(schema, ov, els, x, j);
    } else {
      assert cs[i].sem == ColumnSem(schema, ov, Firsts(ws)[i]) && rs[i].sem == ColumnSem(schema, ov, Seconds(ws)[i]);
      ColumnLength(schema, ov, ws[i].0, x);
      ColumnLength(schema, ov, ws[i].1, x);
      SemIs(schema, ov, ws[i].0, x, j);
      SemIs(schema, ov, ws[i].1, x, j);
      SemOfWhens(schema, ov, ws, els, cs, rs, x, j, i + 1);
    }
  }

  lemma SemOfSwitch(schema: seq<Type>, ov: bool, ws: seq<(Expr, Expr)>, els: Expr, cs: seq<Goal>, rs: seq<Goal>)
    requires WellTyped(Switch(ws, els), schema) && Mean(schema, ov, cs, Firsts(ws)) && Mean(schema, ov, rs, Seconds(ws))
    ensures forall x, j | CallOk(x, schema) && 0 <= j < |x.rows| ::
      ColumnSem(schema, ov, Switch(ws, els))(x)[j] == FirstSql(SemsAt(cs, x, j), SemsAt(rs, x, j),
        ColumnSem(schema, ov, els)(x)[j], 0)
  {
    forall x, j | CallOk(x, schema) && 0 <= j < |x.rows|
      ensures ColumnSem(schema, ov, Switch(ws, els))(x)[j] ==
        FirstSql(SemsAt(cs, x, j), SemsAt(rs, x, j), ColumnSem(schema, ov, els)(x)[j], 0)
    {
      RowOk(x.batch, schema, x.rows[j]);
      SemOfWhens(schema, ov, ws, els, cs, rs, x, j, 0);
      SemIs(schema, ov, Switch(ws, els), x, j);
    }
  }

  // ---------- errors of several trees ----------

  /** One of the trees reports an error. */
  ghost function AnyFault(schema: seq<Type>, ov: bool, es: seq<Expr>): Call -> bool
    requires forall i | 0 <= i < |es| :: WellTyped(es[i], schema)
  {
    (x: Call) => exists i | 0 <= i < |es| :: FaultSem(schema, ov, es[i])(x)
  }

  lemma AnyFaultMore(schema: seq<Type>, ov: bool, es: seq<Expr>, e: Expr, x: Call)
    requires WellTyped(e, schema) && forall i | 0 <= i < |es| :: WellTyped(es[i], schema)
    ensures AnyFault(schema, ov, es + [e])(x) == (AnyFault(schema, ov, es)(x) || FaultSem(schema, ov, e)(x))
  {
    var more := es + [e];
    forall i | 0 <= i < |more| ensures WellTyped(more[i], schema) {}
    if AnyFault(schema, ov, es)(x) {
      var i :| 0 <= i < |es| && FaultSem(schema, ov, es[i])(x);
      assert more[i] == es[i];
    }
    assert more[|es|] == e;
    if AnyFault(schema, ov, more)(x) {
      var i :| 0 <= i < |more| && FaultSem(schema, ov, more[i])(x);
      assert i < |es| ==> more[i] == es[i];
    }
  }

  ghost predicate AnyRowFault(x: Call, schema: seq<Type>, ov: bool, es: seq<Expr>, j: nat)
    requires CallOk(x, schema) && (forall i | 0 <= i < |es| :: WellTyped(es[i], schema)) && j < |x.rows|
  {
    exists i | 0 <= i < |es| :: RowFaults(x, schema, ov, es[i], j)
  }

  lemma AnyFaultRows(schema: seq<Type>, ov: bool, es: seq<Expr>, x: Call)
    requires CallOk(x, schema) && forall i | 0 <= i < |es| :: WellTyped(es[i], schema)
    ensures AnyFault(schema, ov, es)(x) <==> exists j | 0 <= j < |x.rows| :: AnyRowFault(x, schema, ov, es, j)
  {
    hide BatchOk, RowFaults;
    if AnyFault(schema, ov, es)(x) {
      var i :| 0 <= i < |es| && FaultSem(schema, ov, es[i])(x);
      var j :| 0 <= j < |x.rows| && RowFaults(x, schema, ov, es[i], j);
      assert AnyRowFault(x, schema, ov, es, j);
    }
    if j :| 0 <= j < |x.rows| && AnyRowFault(x, schema, ov, es, j) {
      var i :| 0 <= i < |es| && RowFaults(x, schema, ov, es[i], j);
      assert FaultSem(schema, ov, es[i])(x);
    }
  }

  lemma FaultRows(schema: seq<Type>, ov: bool, e: Expr, x: Call)
    requires CallOk(x, schema) && WellTyped(e, schema)
    ensures FaultSem(schema, ov, e)(x) <==> exists j | 0 <= j < |x.rows| :: RowFaults(x, schema, ov, e, j)
  {
  }

  lemma FaultsList(schema: seq<Type>, ov: bool, e: Expr, es: seq<Expr>, x: Call)
    requires WellTyped(e, schema) && (e == In(es) || (e.Func? && es == e.args)) && CallOk(x, schema)
    ensures (forall i | 0 <= i < |es| :: WellTyped(es[i], schema)) &&
      FaultSem(schema, ov, e)(x) == AnyFault(schema, ov, es)(x)
  {
    hide ContextOk, BatchOk;
    forall j | 0 <= j < |x.rows| ensures RowFaults(x, schema, ov, e, j) <==> AnyRowFault(x, schema, ov, es, j) {}
    AnyFaultRows(schema, ov, es, x);
    FaultRows(schema, ov, e, x);
  }

  /** The trees of a CASE in the order they are visited. */
  function Visited(ws: seq<(Expr, Expr)>): seq<Expr> {
    if ws == [] then [] else Visited(ws[..|ws| - 1]) + [ws[|ws| - 1].0] + [ws[|ws| - 1].1]
  }

  lemma {:induction false} VisitedAt(ws: seq<(Expr, Expr)>)
    ensures |Visited(ws)| == 2 * |ws|
    ensures forall i | 0 <= i < |ws| :: Visited(ws)[2 * i] == ws[i].0 && Visited(ws)[2 * i + 1] == ws[i].1
  {
    if ws != [] {
      VisitedAt(ws[..|ws| - 1]);
    }
  }

  lemma VisitedTyped(schema: seq<Type>, ws: seq<(Expr, Expr)>, els: Expr)
    requires WellTyped(Switch(ws, els), schema)
    ensures (forall i | 0 <= i < |Visited(ws)| :: WellTyped(Visited(ws)[i], schema))
  {
    VisitedAt(ws);
    forall i | 0 <= i < |Visited(ws)| ensures WellTyped(Visited(ws)[i], schema) {
      assert i == 2 * (i / 2) || i == 2 * (i / 2) + 1;
      assert WellTyped(ws[i / 2].0, schema) && WellTyped(ws[i / 2].1, schema);
    }
  }

  lemma FaultsSwitch(schema: seq<Type>, ov: bool, ws: seq<(Expr, Expr)>, els: Expr, x: Call)
    requires WellTyped(Switch(ws, els), schema) && CallOk(x, schema)
    ensures (forall i | 0 <= i < |Visited(ws)| :: WellTyped(Visited(ws)[i], schema))
    ensures FaultSem(schema, ov, Switch(ws, els))(x) == (AnyFault(schema, ov, Visited(ws))(x) ||
      FaultSem(schema, ov, els)(x))
  {
    hide ContextOk, BatchOk, CallOk, RowFaults, AnyRowFault, FaultSem, AnyFault;
    VisitedTyped(schema, ws, els);
    var es := Visited(ws);
    forall j | 0 <= j < |x.rows|
      ensures RowFaults(x, schema, ov, Switch(ws, els), j) <==>
        AnyRowFault(x, schema, ov, es, j) || RowFaults(x, schema, ov, els, j)
    {
      SwitchRowFaults(schema, ov, ws, els, x, j);
    }
    AnyFaultRows(schema, ov, es, x);
    FaultRows(schema, ov, Switch(ws, els), x);
    FaultRows(schema, ov, els, x);
  }

  lemma SwitchRowFaults(schema: seq<Type>, ov: bool, ws: seq<(Expr, Expr)>, els: Expr, x: Call, j: nat)
    requires WellTyped(Switch(ws, els), schema) && CallOk(x, schema) && j < |x.rows|
    requires forall i | 0 <= i < |Visited(ws)| :: WellTyped(Visited(ws)[i], schema)
    ensures RowFaults(x, schema, ov, Switch(ws, els), j) <==>
      AnyRowFault(x, schema, ov, Visited(ws), j) || RowFaults(x, schema, ov, els, j)
  {
    hide BatchOk, RowFaults, CallOk, WellTyped;
    VisitedAt(ws);
    var es := Visited(ws);
    BranchFaults(schema, ov, ws, els, x, j);
    if i :| 0 <= i < |ws| && (RowFaults(x, schema, ov, ws[i].0, j) || RowFaults(x, schema, ov, ws[i].1, j)) {
      assert RowFaults(x, schema, ov, es[2 * i], j) || RowFaults(x, schema, ov, es[2 * i + 1], j);
    }
    if i :| 0 <= i < |es| && RowFaults(x, schema, ov, es[i], j) {
      assert i == 2 * (i / 2) || i == 2 * (i / 2) + 1;
      assert RowFaults(x, schema, ov, ws[i / 2].0, j) || RowFaults(x, schema, ov, ws[i / 2].1, j);
    }
  }

  lemma BranchFaults(schema: seq<Type>, ov: bool, ws: seq<(Expr, Expr)>, els: Expr, x: Call, j: nat)
    requires WellTyped(Switch(ws, els), schema) && CallOk(x, schema) && j < |x.rows|
    ensures RowFaults(x, schema, ov, Switch(ws, els), j) <==>
      RowFaults(x, schema, ov, els, j) || exists i | 0 <= i < |ws| ::
        RowFaults(x, schema, ov, ws[i].0, j) || RowFaults(x, schema, ov, ws[i].1, j)
  {
    hide BatchOk;
  }
}
