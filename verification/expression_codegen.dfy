/** The expression compiler: one Visit method per kind of node, each emitting code at the builder's insertion point
    and yielding the operands that hold the node's value. */
module ExpressionCodegen {
  import opened SqlValues
  import opened Expressions
  import opened BlockIR
  import opened CodeShape
  import opened Translation
  import opened Steps
  import opened Builder
  import opened Meanings
  import opened NodeProofs
  import opened BranchProofs
  import opened ArithProofs
  import opened StringEqualProofs
  import opened ChoiceProofs
  import opened FieldProofs
  import opened FuncProofs
  import opened InProofs
  import SP = SwitchProofs

  predicate BinarySupported(op: BinaryOp, t: Type) {
    match op
    case And => true
    case Or => true
    case Compare(_) => t != Boolean
    case Arith(_) => IsInteger(t)
  }

  predicate InSupported(t: Type) {
    t == Int || t == Date32 || t == Timestamp || t == Long || t == Varchar
  }

  predicate BetweenSupported(t: Type) {
    t == Int || t == Long || t == Date32 || t == Timestamp || t == Varchar
  }

  /** The trees the compiler has code for. */
  predicate Compilable(e: Expr) {
    match e
    case Literal(_, _, _) => true
    case Field(_, _) => true
    case Not(x) => Compilable(x)
    case Binary(op, l, r) => Compilable(l) && Compilable(r) && BinarySupported(op, TypeOf(l))
    case In(es) => |es| > 0 && (forall i | 0 <= i < |es| :: Compilable(es[i])) && InSupported(TypeOf(es[0]))
    case Between(v, lo, hi) => Compilable(v) && Compilable(lo) && Compilable(hi) && BetweenSupported(TypeOf(v))
    case If(c, t, f) => Compilable(c) && Compilable(t) && Compilable(f)
    case Switch(ws, els) => (forall i | 0 <= i < |ws| :: Compilable(ws[i].0) && Compilable(ws[i].1)) && Compilable(els)
    case Coalesce(a, b) => Compilable(a) && Compilable(b)
    case IsNull(x) => Compilable(x)
    case Func(_, args) => forall i | 0 <= i < |args| :: Compilable(args[i])
  }

  /** Success exactly on compilable trees, and then the emitted code computes the tree. */
  ghost predicate Visited(schema: seq<Type>, ov: bool, a: Fn, b: Fn, e: Expr, v: Option<CodeGenValue>)
    requires WellTyped(e, schema)
  {
    && (v.Some? <==> Compilable(e))
    && (v.Some? ==> Translates(schema, ov, a, b, e, v.value))
  }

  lemma TranslatesOpen(schema: seq<Type>, ov: bool, a: Fn, b: Fn, e: Expr, v: CodeGenValue)
    requires WellTyped(e, schema) && Translates(schema, ov, a, b, e, v)
    ensures b.Open() && b.cur < |b.blocks| && a.regs <= b.regs && BoundedAll([GoalOf(schema, ov, e, v)], b.regs) &&
      Bounded(v, b.regs)
    ensures Computes(schema, a, b, [GoalOf(schema, ov, e, v)])
  {
    assert Bounded([GoalOf(schema, ov, e, v)][0].v, b.regs);
  }

  lemma OpenCur(a: Fn)
    requires a.Open()
    ensures a.cur < |a.blocks|
  {
  }

  class ExpressionCodeGen {
    const schema: seq<Type>
    const overflowAsNull: bool
    const builder: IRBuilder

    constructor (schema: seq<Type>, overflowAsNull: bool)
      ensures this.schema == schema && this.overflowAsNull == overflowAsNull
      ensures fresh(builder) && builder.fn == Fn([Block([], None)], 0, 0, 0)
    {
      this.schema := schema;
      this.overflowAsNull := overflowAsNull;
      this.builder := new IRBuilder();
    }

    ghost function G(e: Expr, v: CodeGenValue): Goal
      requires WellTyped(e, schema)
    {
      GoalOf(schema, overflowAsNull, e, v)
    }

    method VisitLiteral(ty: Type, isNull: bool, data: Val) returns (v: Option<CodeGenValue>)
      requires builder.fn.Open() && WellTyped(Literal(ty, isNull, data), schema)
      ensures Visited(schema, overflowAsNull, builder.fn, builder.fn, Literal(ty, isNull, data), v)
    {
      var length := if ty == Varchar then Const(VInt(|data.bytes|)) else NO_LENGTH;
      v := Some(CodeGenValue(Const(data), Const(VBool(isNull)), length));
      OfLiteral(schema, overflowAsNull, ty, isNull, data);
      ghost var k := G(Literal(ty, isNull, data), v.value);
      LiteralComputes(schema, builder.fn, ty, isNull, data, k);
    }

    method VisitNot(x: Expr) returns (v: Option<CodeGenValue>)
      requires builder.fn.Open() && WellTyped(Not(x), schema)
      modifies builder
      ensures Visited(schema, overflowAsNull, old(builder.fn), builder.fn, Not(x), v)
      decreases Not(x), 0
    {
      hide Grown, Met, Fn.Open, Computes, ComputesFrom, Meaning;
      ghost var a := builder.fn;
      var val := VisitExpr(x);
      if val.None? {
        return None;
      }
      ghost var b, g := builder.fn, G(x, val.value);
      TranslatesOpen(schema, overflowAsNull, a, b, x, val.value);
      var notValue := builder.CreateNot(val.value.data);
      v := Some(CodeGenValue(notValue, val.value.isNull, NO_LENGTH));
      ghost var k := G(Not(x), v.value);
      OfNot(schema, overflowAsNull, x);
      NotComputes(schema, b, builder.fn, g, k);
      ComputesMore(schema, a, b, builder.fn, [g], [k]);
    }

    method VisitIsNull(x: Expr) returns (v: Option<CodeGenValue>)
      requires builder.fn.Open() && WellTyped(IsNull(x), schema)
      modifies builder
      ensures Visited(schema, overflowAsNull, old(builder.fn), builder.fn, IsNull(x), v)
      decreases IsNull(x), 0
    {
      hide Grown, Met, Fn.Open, Computes, ComputesFrom, Meaning;
      ghost var a := builder.fn;
      var val := VisitExpr(x);
      if val.None? {
        return None;
      }
      ghost var b, g := builder.fn, G(x, val.value);
      TranslatesOpen(schema, overflowAsNull, a, b, x, val.value);
      var result := builder.CreateICmp(EQ, val.value.isNull, Const(VBool(true)));
      v := Some(CodeGenValue(result, Const(VBool(false)), NO_LENGTH));
      ghost var k := G(IsNull(x), v.value);
      OfIsNull(schema, overflowAsNull, x);
      IsNullComputes(schema, b, builder.fn, g, k);
      ComputesMore(schema, a, b, builder.fn, [g], [k]);
    }

    // ---------- binary operators ----------

    method LogicalAnd(left: CodeGenValue, right: CodeGenValue, ghost g: Goal, ghost h: Goal, ghost sem: Context -> Sql)
                      returns (v: CodeGenValue)
      requires builder.fn.Open() && BoundedAll([g, h], builder.fn.regs) && g.t == Boolean && h.t == Boolean &&
        g.v == left && h.v == right
      requires forall ctx | ContextOk(ctx, schema) :: sem(ctx) == KleeneAnd(g.sem(ctx), h.sem(ctx))
      modifies builder
      ensures ComputesFrom(schema, old(builder.fn), builder.fn, [g, h], [Goal(Boolean, v, sem)])
    {
      hide Grown, Met, Fn.Open, Fn.Add, ComputesFrom, BoundedAll;
      ghost var b := builder.fn;
      OpenCur(b);
      var data := builder.CreateAnd(left.data, right.data);
      ghost var c1 := builder.fn;
      var both := builder.CreateAnd(left.isNull, right.isNull);
      ghost var c2 := builder.fn;
      var one := builder.CreateAnd(left.isNull, right.data);
      ghost var c3 := builder.fn;
      var other := builder.CreateAnd(right.isNull, left.data);
      ghost var c4 := builder.fn;
      var either := builder.CreateOr(one, other);
      ghost var c5 := builder.fn;
      var isNull := builder.CreateOr(both, either);
      v := CodeGenValue(data, isNull, NO_LENGTH);
      AndComputes(schema, b, c1, c2, c3, c4, c5, builder.fn, g, h, Goal(Boolean, v, sem));
    }

    method LogicalOr(left: CodeGenValue, right: CodeGenValue, ghost g: Goal, ghost h: Goal, ghost sem: Context -> Sql)
                     returns (v: CodeGenValue)
      requires builder.fn.Open() && BoundedAll([g, h], builder.fn.regs) && g.t == Boolean && h.t == Boolean &&
        g.v == left && h.v == right
      requires forall ctx | ContextOk(ctx, schema) :: sem(ctx) == KleeneOr(g.sem(ctx), h.sem(ctx))
      modifies builder
      ensures ComputesFrom(schema, old(builder.fn), builder.fn, [g, h], [Goal(Boolean, v, sem)])
    {
      hide Grown, Met, Fn.Open, Fn.Add, ComputesFrom, BoundedAll;
      ghost var b := builder.fn;
      OpenCur(b);
      var data := builder.CreateOr(left.data, right.data);
      ghost var c1 := builder.fn;
      var both := builder.CreateAnd(left.isNull, right.isNull);
      ghost var c2 := builder.fn;
      var notRight := builder.CreateNot(right.data);
      ghost var c3 := builder.fn;
      var one := builder.CreateAnd(left.isNull, notRight);
      ghost var c4 := builder.fn;
      var notLeft := builder.CreateNot(left.data);
      ghost var c5 := builder.fn;
      var other := builder.CreateAnd(right.isNull, notLeft);
      ghost var c6 := builder.fn;
      var either := builder.CreateOr(one, other);
      ghost var c7 := builder.fn;
      var isNull := builder.CreateOr(both, either);
      v := CodeGenValue(data, isNull, NO_LENGTH);
      OrComputes(schema, b, c1, c2, c3, c4, c5, c6, c7, builder.fn, g, h, Goal(Boolean, v, sem));
    }

    /** A comparison of integers. */
    method CompareHelper(op: CmpOp, left: CodeGenValue, right: CodeGenValue, ghost g: Goal, ghost h: Goal,
                         ghost sem: Context -> Sql) returns (v: CodeGenValue)
      requires builder.fn.Open() && BoundedAll([g, h], builder.fn.regs) && IsInteger(g.t) && IsInteger(h.t) &&
        g.v == left && h.v == right
      requires forall ctx | ContextOk(ctx, schema) :: sem(ctx) == CompareSql(ctx.kernels, op, g.sem(ctx), h.sem(ctx))
      modifies builder
      ensures ComputesFrom(schema, old(builder.fn), builder.fn, [g, h], [Goal(Boolean, v, sem)])
    {
      hide Grown, Met, Fn.Open, Fn.Add, Fn.Ins, ComputesFrom, BoundedAll;
      ghost var b := builder.fn;
      OpenCur(b);
      var nullFlag := builder.CreateAlloca();
      builder.CreateStore(Const(VBool(false)), nullFlag);
      ghost var c1 := builder.fn;
      var anyNull := builder.CreateOr(left.isNull, right.isNull);
      ghost var c2 := builder.fn;
      var neitherNull := builder.CreateNot(anyNull);
      ghost var c3 := builder.fn;
      var outcome := builder.Create(CallCompareI(builder.fn.regs, op, left.data, right.data));
      ghost var c4 := builder.fn;
      var data := builder.CreateAnd(neitherNull, outcome);
      ghost var c5 := builder.fn;
      var operandNull := builder.CreateOr(left.isNull, right.isNull);
      ghost var c6 := builder.fn;
      var flag := builder.CreateLoad(nullFlag);
      ghost var c7 := builder.fn;
      var isNull := builder.CreateOr(operandNull, flag);
      v := CodeGenValue(data, isNull, NO_LENGTH);
      CompareComputes(schema, b, c1, c2, c3, c4, c5, c6, c7, builder.fn, op, g, h, Goal(Boolean, v, sem));
    }

    /** An ordering comparison of strings. */
    method StringOrderHelper(op: CmpOp, left: CodeGenValue, right: CodeGenValue, ghost g: Goal, ghost h: Goal,
                             ghost sem: Context -> Sql) returns (v: CodeGenValue)
      requires builder.fn.Open() && BoundedAll([g, h], builder.fn.regs) && g.t == Varchar && h.t == Varchar &&
        g.v == left && h.v == right
      requires op != EQ && op != NEQ
      requires forall ctx | ContextOk(ctx, schema) :: sem(ctx) == CompareSql(ctx.kernels, op, g.sem(ctx), h.sem(ctx))
      modifies builder
      ensures ComputesFrom(schema, old(builder.fn), builder.fn, [g, h], [Goal(Boolean, v, sem)])
    {
      hide Grown, Met, Fn.Open, Fn.Add, Fn.Ins, ComputesFrom, BoundedAll;
      ghost var b := builder.fn;
      OpenCur(b);
      var anyNull := builder.CreateOr(left.isNull, right.isNull);
      ghost var c1 := builder.fn;
      var neitherNull := builder.CreateNot(anyNull);
      ghost var c2 := builder.fn;
      var order := builder.Create(CallStrCompareI(builder.fn.regs, left.data, left.length, right.data, right.length));
      ghost var c3 := builder.fn;
      var outcome := builder.CreateICmp(op, order, Const(VInt(0)));
      ghost var c4 := builder.fn;
      var data := builder.CreateAnd(neitherNull, outcome);
      ghost var c5 := builder.fn;
      var isNull := builder.CreateOr(left.isNull, right.isNull);
      v := CodeGenValue(data, isNull, NO_LENGTH);
      StrOrderComputes(schema, b, c1, c2, c3, c4, c5, builder.fn, op, g, h, Goal(Boolean, v, sem));
    }

    /** String equality with its own three blocks; `isNull` is the null flag of the two operands. */
    method StringEqual(left: CodeGenValue, right: CodeGenValue, isNull: Operand, ghost b: Fn)
                       returns (same: Operand, ghost e: EqualCode)
      requires b.cur < |b.blocks| && IsAdd(b, OrI(b.regs, left.isNull, right.isNull), builder.fn) &&
        isNull == Reg(b.regs)
      modifies builder
      ensures e.b == b && e.Built(left, right) && e.D().f1.cur < |e.D().f1.blocks| && e.D().M < |e.D().f1.blocks|
      ensures builder.fn == e.Done() && same == e.Same()
    {
      hide Compilable, WellTyped, Phi, Exec;
      ghost var c1 := builder.fn;
      var equalLength := builder.CreateICmp(EQ, left.length, right.length);
      ghost var c2 := builder.fn;
      var notNull := builder.CreateNot(isNull);
      ghost var c3 := builder.fn;
      var lenCond := builder.CreateAnd(equalLength, notNull);
      ghost var c4 := builder.fn;
      var lenEqualBlock := builder.CreateBlock();
      var lenNotEqualBlock := builder.CreateBlock();
      var mergeBlock := builder.CreateBlock();
      builder.CreateCondBr(lenCond, lenEqualBlock, lenNotEqualBlock);
      builder.SetInsertPoint(lenEqualBlock);
      var ret := builder.Create(CallStrEqualI(builder.fn.regs, left.data, left.length, right.data, right.length));
      ghost var t1 := builder.fn;
      builder.CreateBr(mergeBlock);
      builder.SetInsertPoint(lenNotEqualBlock);
      builder.CreateBr(mergeBlock);
      builder.SetInsertPoint(mergeBlock);
      ghost var m := builder.fn;
      same := builder.CreatePhi(lenEqualBlock, ret, lenNotEqualBlock, lenCond);
      e := EqualCode(b, c1, c2, c3, c4, t1);
      assert e.D().MergeStart() == m && e.D().f1.regs == m.regs;
      OnePhi(m, builder.fn, lenEqualBlock, lenNotEqualBlock, CodeGenValue(ret, Const(VBool(false)), NO_LENGTH),
        CodeGenValue(lenCond, Const(VBool(false)), NO_LENGTH));
    }

    /** = and <> on strings. */
    method StringEqualityHelper(op: CmpOp, left: CodeGenValue, right: CodeGenValue, ghost g: Goal, ghost h: Goal,
                                ghost sem: Context -> Sql) returns (v: CodeGenValue)
      requires builder.fn.Open() && BoundedAll([g, h], builder.fn.regs) && g.t == Varchar && h.t == Varchar &&
        g.v == left && h.v == right
      requires op == EQ || op == NEQ
      requires forall ctx | ContextOk(ctx, schema) :: sem(ctx) == CompareSql(ctx.kernels, op, g.sem(ctx), h.sem(ctx))
      modifies builder
      ensures ComputesFrom(schema, old(builder.fn), builder.fn, [g, h], [Goal(Boolean, v, sem)])
    {
      hide Grown, Met, Fn.Open, Fn.Add, Fn.Ins, ComputesFrom, BoundedAll, EqualCode.D, EqualCode.Built;
      ghost var b := builder.fn;
      OpenCur(b);
      var isNull := builder.CreateOr(left.isNull, right.isNull);
      var same, e := StringEqual(left, right, isNull, b);
      ghost var z := builder.fn;
      DoneCur(e, left, right);
      var data := same;
      if op == NEQ {
        data := builder.CreateNot(same);
      }
      ghost var c1 := builder.fn;
      var resultNull := builder.CreateOr(left.isNull, right.isNull);
      v := CodeGenValue(data, resultNull, NO_LENGTH);
      StrEqualityComputes(schema, e, c1, builder.fn, op, g, h, Goal(Boolean, v, sem));
    }

    /** What the kernel is fed on a null row: 0 and 1 for the types the helper knows. */
    function Replacement(ty: Type, constant: int, own: Operand): Operand {
      if ty == Int || ty == Date32 || ty == Long then Const(VInt(constant)) else own
    }

    method BinaryExprNullHelper(ty: Type, left: CodeGenValue, right: CodeGenValue)
                                returns (leftPhi: Operand, rightPhi: Operand, ghost d: Detour, ghost m1: Fn)
      requires builder.fn.cur < |builder.fn.blocks|
      modifies builder
      ensures d.base == old(builder.fn) && d.ln == left.isNull && d.rn == right.isNull && d.Built() &&
        d.c.cur < |d.c.blocks| && d.N < |d.c.blocks|
      ensures IsAdd(d.Join(), Phi(d, d.c.regs, Replacement(ty, 0, left.data), left.data), m1)
      ensures IsAdd(m1, Phi(d, m1.regs, Replacement(ty, 1, right.data), right.data), builder.fn)
      ensures leftPhi == Reg(d.c.regs) && rightPhi == Reg(m1.regs)
    {
      ghost var base := builder.fn;
      var incomingBlock := builder.fn.cur;
      var nullBlock := builder.CreateBlock();
      var nextInst := builder.CreateBlock();
      var nullCond := builder.CreateOr(left.isNull, right.isNull);
      d := Detour(base, builder.fn, left.isNull, right.isNull);
      builder.CreateCondBr(nullCond, nullBlock, nextInst);
      builder.SetInsertPoint(nullBlock);
      var leftZero := Replacement(ty, 0, left.data);
      var rightOne := Replacement(ty, 1, right.data);
      builder.CreateBr(nextInst);
      builder.SetInsertPoint(nextInst);
      leftPhi := builder.CreatePhi(nullBlock, leftZero, incomingBlock, left.data);
      m1 := builder.fn;
      rightPhi := builder.CreatePhi(nullBlock, rightOne, incomingBlock, right.data);
    }

    /** An arithmetic operator on integers of type `ty`. */
    method ArithHelper(op: ArithOp, ty: Type, left: CodeGenValue, right: CodeGenValue, ghost g: Goal, ghost h: Goal,
                       ghost sem: Context -> Sql) returns (v: CodeGenValue)
      requires builder.fn.Open() && BoundedAll([g, h], builder.fn.regs) && g.t == ty && h.t == ty && g.v == left &&
        h.v == right && IsInteger(ty)
      requires forall ctx | ContextOk(ctx, schema) :: sem(ctx) == ArithSql(ctx.kernels, op, ty, g.sem(ctx), h.sem(ctx))
      modifies builder
      ensures ComputesFrom(schema, old(builder.fn), builder.fn, [g, h], [Goal(ty, v, sem)])
    {
      hide Grown, Met, Fn.Open, Fn.Add, Fn.Ins, ComputesFrom, BoundedAll, Detour.Join, Detour.Built, Phi, ArithSql;
      ghost var b := builder.fn;
      OpenCur(b);
      var nullFlag := builder.CreateAlloca();
      builder.CreateStore(Const(VBool(false)), nullFlag);
      ghost var c1 := builder.fn;
      var anyNull := builder.CreateOr(left.isNull, right.isNull);
      ghost var c2 := builder.fn;
      var neitherNull := builder.CreateNot(anyNull);
      ghost var c3 := builder.fn;
      var leftPhi, rightPhi, d, m1 := BinaryExprNullHelper(ty, left, right);
      ghost var m2 := builder.fn;
      var data := builder.Create(CallArithI(builder.fn.regs, op, ty, nullFlag, leftPhi, rightPhi));
      ghost var e1 := builder.fn;
      var operandNull := builder.CreateOr(left.isNull, right.isNull);
      ghost var e2 := builder.fn;
      var flag := builder.CreateLoad(nullFlag);
      ghost var e3 := builder.fn;
      var isNull := builder.CreateOr(operandNull, flag);
      v := CodeGenValue(data, isNull, NO_LENGTH);
      ghost var x := ArithCode(b, c1, c2, c3, d, m1, m2, e1, e2, e3, builder.fn);
      ArithComputes(schema, x, op, ty, g, h, Replacement(ty, 0, left.data), Replacement(ty, 1, right.data),
        Goal(ty, v, sem));
    }

    method BinaryHelper(op: BinaryOp, ty: Type, left: CodeGenValue, right: CodeGenValue, ghost g: Goal, ghost h: Goal,
                        ghost sem: Context -> Sql)
      returns (v: CodeGenValue)
      requires builder.fn.Open() && BoundedAll([g, h], builder.fn.regs) && g.t == ty && h.t == ty && g.v == left &&
        h.v == right
      requires BinarySupported(op, ty) && (op.And? || op.Or? ==> ty == Boolean)
      requires forall ctx | ContextOk(ctx, schema) :: sem(ctx) == BinarySql(ctx.kernels, op, ty, g.sem(ctx), h.sem(ctx))
      modifies builder
      ensures ComputesFrom(schema, old(builder.fn), builder.fn, [g, h],
        [Goal(if op.Arith? then ty else Boolean, v, sem)])
    {
      hide Grown, Met, Fn.Open, ComputesFrom, BoundedAll, KleeneAnd, KleeneOr, CompareSql, ArithSql;
      match op
      case And => v := LogicalAnd(left, right, g, h, sem);
      case Or => v := LogicalOr(left, right, g, h, sem);
      case Arith(o) => v := ArithHelper(o, ty, left, right, g, h, sem);
      case Compare(c) =>
        if ty != Varchar {
          v := CompareHelper(c, left, right, g, h, sem);
        } else if c == EQ || c == NEQ {
          v := StringEqualityHelper(c, left, right, g, h, sem);
        } else {
          v := StringOrderHelper(c, left, right, g, h, sem);
        }
    }

    method VisitBinary(op: BinaryOp, l: Expr, r: Expr) returns (v: Option<CodeGenValue>)
      requires builder.fn.Open() && WellTyped(Binary(op, l, r), schema)
      modifies builder
      ensures Visited(schema, overflowAsNull, old(builder.fn), builder.fn, Binary(op, l, r), v)
      decreases Binary(op, l, r), 0
    {
      hide Grown, Met, Fn.Open, ComputesFrom, BoundedAll, BinarySql, Meaning;
      ghost var a := builder.fn;
      var left := VisitExpr(l);
      if left.None? {
        return None;
      }
      ghost var b, g := builder.fn, G(l, left.value);
      TranslatesOpen(schema, overflowAsNull, a, b, l, left.value);
      var right := VisitExpr(r);
      if right.None? {
        return None;
      }
      ghost var c, h := builder.fn, G(r, right.value);
      TwoOperands(schema, a, b, c, g, h);
      if !BinarySupported(op, TypeOf(l)) {
        return None;
      }
      OfBinary(schema, overflowAsNull, op, l, r);
      var value := BinaryHelper(op, TypeOf(l), left.value, right.value, g, h,
        Meaning(schema, overflowAsNull, Binary(op, l, r)));
      v := Some(value);
      ComputesMore(schema, a, c, builder.fn, [g, h], [G(Binary(op, l, r), value)]);
    }

    // ---------- BETWEEN ----------

    method BetweenInt(val: CodeGenValue, lower: CodeGenValue, upper: CodeGenValue, ghost g: Goal, ghost lo: Goal,
                      ghost hi: Goal, ghost sem: Context -> Sql)
      returns (v: CodeGenValue)
      requires builder.fn.Open() && BoundedAll([g, lo, hi], builder.fn.regs) && g.v == val && lo.v == lower &&
        hi.v == upper
      requires IsInteger(g.t) && IsInteger(lo.t) && IsInteger(hi.t)
      requires forall ctx | ContextOk(ctx, schema) ::
        sem(ctx) == BetweenSql(ctx.kernels, g.sem(ctx), lo.sem(ctx), hi.sem(ctx))
      modifies builder
      ensures ComputesFrom(schema, old(builder.fn), builder.fn, [g, lo, hi], [Goal(Boolean, v, sem)])
    {
      hide Grown, Met, Fn.Open, Fn.Add, ComputesFrom, BoundedAll, BetweenSql;
      ghost var b := builder.fn;
      OpenCur(b);
      var someNull := builder.CreateOr(val.isNull, lower.isNull);
      ghost var c1 := builder.fn;
      var isAnyNull := builder.CreateOr(someNull, upper.isNull);
      ghost var c2 := builder.fn;
      var isNeitherNull := builder.CreateNot(isAnyNull);
      ghost var c3 := builder.fn;
      var cmpLeft := builder.CreateICmp(LTE, lower.data, val.data);
      ghost var c4 := builder.fn;
      var cmpRight := builder.CreateICmp(LTE, val.data, upper.data);
      ghost var c5 := builder.fn;
      var partial := builder.CreateAnd(isNeitherNull, cmpLeft);
      ghost var c6 := builder.fn;
      var result := builder.CreateAnd(partial, cmpRight);
      v := CodeGenValue(result, isAnyNull, NO_LENGTH);
      BetweenIntComputes(schema, b, c1, c2, c3, c4, c5, c6, builder.fn, g, lo, hi, Goal(Boolean, v, sem));
    }

    method BetweenStr(val: CodeGenValue, lower: CodeGenValue, upper: CodeGenValue, ghost g: Goal, ghost lo: Goal,
                      ghost hi: Goal, ghost sem: Context -> Sql)
      returns (v: CodeGenValue)
      requires builder.fn.Open() && BoundedAll([g, lo, hi], builder.fn.regs) && g.v == val && lo.v == lower &&
        hi.v == upper
      requires g.t == Varchar && lo.t == Varchar && hi.t == Varchar
      requires forall ctx | ContextOk(ctx, schema) ::
        sem(ctx) == BetweenSql(ctx.kernels, g.sem(ctx), lo.sem(ctx), hi.sem(ctx))
      modifies builder
      ensures ComputesFrom(schema, old(builder.fn), builder.fn, [g, lo, hi], [Goal(Boolean, v, sem)])
    {
      hide Grown, Met, Fn.Open, Fn.Add, ComputesFrom, BoundedAll, BetweenSql;
      ghost var b := builder.fn;
      OpenCur(b);
      var someNull := builder.CreateOr(val.isNull, lower.isNull);
      ghost var c1 := builder.fn;
      var isAnyNull := builder.CreateOr(someNull, upper.isNull);
      ghost var c2 := builder.fn;
      var isNeitherNull := builder.CreateNot(isAnyNull);
      ghost var c3 := builder.fn;
      var orderLeft := builder.Create(CallStrCompareI(builder.fn.regs, lower.data, lower.length, val.data, val.length));
      ghost var c4 := builder.fn;
      var cmpLeft := builder.CreateICmp(LTE, orderLeft, Const(VInt(0)));
      ghost var c5 := builder.fn;
      var orderRight := builder.Create(CallStrCompareI(builder.fn.regs, val.data, val.length, upper.data,
        upper.length));
      ghost var c6 := builder.fn;
      var cmpRight := builder.CreateICmp(LTE, orderRight, Const(VInt(0)));
      ghost var c7 := builder.fn;
      var partial := builder.CreateAnd(isNeitherNull, cmpLeft);
      ghost var c8 := builder.fn;
      var result := builder.CreateAnd(partial, cmpRight);
      v := CodeGenValue(result, isAnyNull, NO_LENGTH);
      BetweenStrComputes(schema, b, c1, c2, c3, c4, c5, c6, c7, c8, builder.fn, g, lo, hi, Goal(Boolean, v, sem));
    }

    method VisitBetween(value: Expr, lower: Expr, upper: Expr) returns (v: Option<CodeGenValue>)
      requires builder.fn.Open() && WellTyped(Between(value, lower, upper), schema)
      modifies builder
      ensures Visited(schema, overflowAsNull, old(builder.fn), builder.fn, Between(value, lower, upper), v)
      decreases Between(value, lower, upper), 0
    {
      hide Grown, Met, Fn.Open, ComputesFrom, BoundedAll, BetweenSql, Meaning;
      ghost var a := builder.fn;
      var val := VisitExpr(value);
      if val.None? {
        return None;
      }
      ghost var b, g := builder.fn, G(value, val.value);
      TranslatesOpen(schema, overflowAsNull, a, b, value, val.value);
      var lowerVal := VisitExpr(lower);
      if lowerVal.None? {
        return None;
      }
      ghost var c, lo := builder.fn, G(lower, lowerVal.value);
      TwoOperands(schema, a, b, c, g, lo);
      var upperVal := VisitExpr(upper);
      if upperVal.None? {
        return None;
      }
      ghost var d, hi := builder.fn, G(upper, upperVal.value);
      ThreeOperands(schema, a, c, d, g, lo, hi);
      if !BetweenSupported(TypeOf(value)) {
        return None;
      }
      OfBetween(schema, overflowAsNull, value, lower, upper);
      ghost var sem := Meaning(schema, overflowAsNull, Between(value, lower, upper));
      var result;
      if TypeOf(value) == Varchar {
        result := BetweenStr(val.value, lowerVal.value, upperVal.value, g, lo, hi, sem);
      } else {
        result := BetweenInt(val.value, lowerVal.value, upperVal.value, g, lo, hi, sem);
      }
      v := Some(result);
      ComputesMore(schema, a, d, builder.fn, [g, lo, hi], [G(Between(value, lower, upper), result)]);
    }

    // ---------- IF, COALESCE ----------

    /** The phis of a merge block. */
    method CreatePhis(tb: nat, x: CodeGenValue, fb: nat, y: CodeGenValue, w: Parts) returns (v: CodeGenValue)
      requires builder.fn.cur < |builder.fn.blocks|
      modifies builder
      ensures builder.fn == old(builder.fn).Ins(Phis(old(builder.fn).regs, tb, fb, Pairs(x, y, w)), |Pairs(x, y, w)|)
      ensures v.data == Reg(old(builder.fn).regs) && v.isNull ==
        (if w.isNull then Reg(old(builder.fn).regs + 1) else Const(VBool(false)))
      ensures v.length == if w.length then Reg(old(builder.fn).regs + if w.isNull then 2 else 1) else NO_LENGTH
    {
      ghost var m, ps := builder.fn, [];
      NoPhis(m, tb, fb);
      var data := builder.CreatePhi(tb, x.data, fb, y.data);
      PhiAppended(m, m, builder.fn, tb, fb, ps, (x.data, y.data));
      ps := ps + [(x.data, y.data)];
      var isNull := Const(VBool(false));
      if w.isNull {
        ghost var c := builder.fn;
        isNull := builder.CreatePhi(tb, x.isNull, fb, y.isNull);
        PhiAppended(m, c, builder.fn, tb, fb, ps, (x.isNull, y.isNull));
        ps := ps + [(x.isNull, y.isNull)];
      }
      var length := NO_LENGTH;
      if w.length {
        ghost var c := builder.fn;
        length := builder.CreatePhi(tb, x.length, fb, y.length);
        PhiAppended(m, c, builder.fn, tb, fb, ps, (x.length, y.length));
        ps := ps + [(x.length, y.length)];
      }
      assert ps == Pairs(x, y, w);
      v := CodeGenValue(data, isNull, length);
    }

    /** The three blocks, the condition, and the decision. */
    method IfHead(cond: Expr) returns (decision: Option<Operand>, ghost c0: Fn, ghost c1: Fn, ghost g: Goal)
      requires builder.fn.Open() && WellTyped(cond, schema) && TypeOf(cond) == Boolean
      modifies builder
      ensures decision.Some? <==> Compilable(cond)
      ensures decision.Some? ==>
        var a := old(builder.fn); var c := builder.fn;
        && Computes(schema, a.NewBlock().NewBlock().NewBlock(), c0, [g]) && g.t == Boolean &&
          g.sem == Meaning(schema, overflowAsNull, cond)
        && DecideCode(c0, c1, c, g.v) && decision.value == Reg(c1.regs)
        && Grown(a.NewBlock().NewBlock().NewBlock(), c) && c.cur < |c.blocks|
        && c.Close(CondBr(decision.value, |a.blocks|, |a.blocks| + 1)).At(|a.blocks|).Open()
      decreases cond, 3
    {
      hide Grown, Met, Fn.Open, BoundedAll, Meaning, ComputesFrom, DecideCode;
      ghost var a := builder.fn;
      BlocksCreated(a);
      var trueBlock := builder.CreateBlock();
      var falseBlock := builder.CreateBlock();
      var mergeBlock := builder.CreateBlock();
      ghost var created := builder.fn;
      var evCond := VisitExpr(cond);
      if evCond.None? {
        return None, a, a, Assume(ctx => true);
      }
      c0, g := builder.fn, G(cond, evCond.value);
      TranslatesOpen(schema, overflowAsNull, created, c0, cond, evCond.value);
      var o;
      o, c1 := Decide(evCond.value, g, created);
      decision := Some(o);
      FirstArmOpen(a, builder.fn, o);
    }

    /** The two arms and the merge; `a` is where the blocks were created. */
    method IfArms(decision: Operand, ifTrue: Expr, ifFalse: Expr, first: nat, ghost a: Fn, ghost e: Expr)
                  returns (v: Option<CodeGenValue>, ghost d: Diamond, ghost x: Goal, ghost y: Goal)
      requires e.If? && e.trueExpr == ifTrue && e.falseExpr == ifFalse && first == |a.blocks|
      requires WellTyped(ifTrue, schema) && WellTyped(ifFalse, schema) && a.Open() &&
        Grown(a.NewBlock().NewBlock().NewBlock(), builder.fn)
      requires builder.fn.cur < |builder.fn.blocks| && builder.fn.Close(CondBr(decision, |a.blocks|, |a.blocks| +
        1)).At(|a.blocks|).Open()
      modifies builder
      ensures v.Some? <==> Compilable(ifTrue) && Compilable(ifFalse)
      ensures v.Some? ==>
        && d.base == a && d.cond == decision && d.c == old(builder.fn)
        && Computes(schema, d.TrueStart(), d.t1, [x]) && x.t == TypeOf(ifTrue) &&
          x.sem == Meaning(schema, overflowAsNull, ifTrue)
        && d.t1.cur < |d.t1.blocks| && Computes(schema, d.FalseStart(), d.f1, [y]) && y.t == TypeOf(ifFalse) &&
          y.sem == Meaning(schema, overflowAsNull, ifFalse)
        && d.f1.cur < |d.f1.blocks| && d.M < |d.f1.blocks| && builder.fn == d.Done(x.v, y.v, ValueParts(x.t))
        && v.value == CodeGenValue(Reg(d.f1.regs), Reg(d.f1.regs + 1), if x.t == Varchar then Reg(d.f1.regs + 2)
          else NO_LENGTH)
      decreases e, 0
    {
      hide Grown, Met, Fn.Open, BoundedAll, Meaning, ComputesFrom, Phis, Pairs, Compilable, WellTyped;
      ghost var c := builder.fn;
      var trueBlock, falseBlock, mergeBlock := first, first + 1, first + 2;
      builder.CreateCondBr(decision, trueBlock, falseBlock);
      builder.SetInsertPoint(trueBlock);
      var evTrue, t1 := VisitArm(ifTrue, mergeBlock);
      d, x, y := Diamond(a, decision, c, t1, t1), Assume(ctx => true), Assume(ctx => true);
      if evTrue.None? {
        return None, d, x, y;
      }
      x := G(ifTrue, evTrue.value);
      var trueEnd := builder.fn.cur;
      SecondArmOpen(a, c, decision, t1);
      builder.SetInsertPoint(falseBlock);
      var evFalse, f1 := VisitArm(ifFalse, mergeBlock);
      if evFalse.None? {
        return None, d, x, y;
      }
      y := G(ifFalse, evFalse.value);
      d := Diamond(a, decision, c, t1, f1);
      MergeBlockThere(d);
      var falseEnd := builder.fn.cur;
      builder.SetInsertPoint(mergeBlock);
      var value := CreatePhis(trueEnd, evTrue.value, falseEnd, evFalse.value, ValueParts(TypeOf(ifTrue)));
      v := Some(value);
    }

    method VisitIf(cond: Expr, ifTrue: Expr, ifFalse: Expr) returns (v: Option<CodeGenValue>)
      requires builder.fn.Open() && WellTyped(If(cond, ifTrue, ifFalse), schema)
      modifies builder
      ensures Visited(schema, overflowAsNull, old(builder.fn), builder.fn, If(cond, ifTrue, ifFalse), v)
      decreases If(cond, ifTrue, ifFalse), 1
    {
      hide Grown, Met, Fn.Open, BoundedAll, Meaning, ComputesFrom, DecideCode, Diamond.TrueStart, Diamond.FalseStart,
        Diamond.Done, Fn.Close, Fn.At, Compilable, WellTyped;
      IfTyped(cond, ifTrue, ifFalse, schema);
      ghost var a := builder.fn;
      var blocks := |builder.fn.blocks|;
      var decision, c0, c1, g := IfHead(cond);
      if decision.None? {
        return None;
      }
      ghost var d, x, y;
      v, d, x, y := IfArms(decision.value, ifTrue, ifFalse, blocks, a, If(cond, ifTrue, ifFalse));
      if v.Some? {
        OfIf(schema, overflowAsNull, cond, ifTrue, ifFalse);
        IfComputes(schema, d, c0, c1, g, x, y, G(If(cond, ifTrue, ifFalse), v.value));
      }
    }

    /** A subtree in its own block, then a branch to the merge block. */
    method VisitArm(e: Expr, mergeBlock: nat) returns (v: Option<CodeGenValue>, ghost arm: Fn)
      requires builder.fn.Open() && WellTyped(e, schema)
      modifies builder
      ensures v.Some? <==> Compilable(e)
      ensures v.Some? ==>
        && Translates(schema, overflowAsNull, old(builder.fn), arm, e, v.value) && Grown(old(builder.fn), arm)
        && arm.cur < |arm.blocks| && builder.fn == arm.Close(Br(mergeBlock))
      decreases e, 3
    {
      hide Grown, Met, Fn.Open, BoundedAll, Meaning;
      ghost var a := builder.fn;
      v := VisitExpr(e);
      arm := builder.fn;
      if v.Some? {
        TranslatesOpen(schema, overflowAsNull, a, arm, e, v.value);
        builder.CreateBr(mergeBlock);
      }
    }

    /** `not null and true`. */
    method Decide(cond: CodeGenValue, ghost g: Goal, ghost a: Fn) returns (decision: Operand, ghost c1: Fn)
      requires builder.fn.Open() && g.t == Boolean && g.v == cond && Computes(schema, a, builder.fn, [g])
      modifies builder
      ensures DecideCode(old(builder.fn), c1, builder.fn, g.v) && decision == Reg(c1.regs)
      ensures Grown(a, builder.fn) && builder.fn.cur < |builder.fn.blocks|
    {
      hide Fn.Add, Fn.Open, Grown;
      ghost var b := builder.fn;
      OpenCur(b);
      var notNull := builder.CreateNot(cond.isNull);
      c1 := builder.fn;
      decision := builder.CreateAnd(notNull, cond.data);
      GrownStep(a, b, NotI(b.regs, cond.isNull), c1);
      GrownStep(a, c1, AndI(c1.regs, notNull, cond.data), builder.fn);
    }

    /** The branch on the first operand's null flag, the second operand in the null arm, and the merge. */
    method CoalesceDiamond(value1: CodeGenValue, e: Expr) returns (v: Option<CodeGenValue>, ghost d: Diamond,
                           ghost x: Goal)
      requires builder.fn.Open() && WellTyped(e, schema)
      modifies builder
      ensures v.Some? <==> Compilable(e)
      ensures v.Some? ==>
        && d.base == old(builder.fn) && d.cond == value1.isNull && d.c == d.Created() && d.c.cur < |d.c.blocks|
        && Computes(schema, d.TrueStart(), d.t1, [x]) && x.t == TypeOf(e) && x.sem == Meaning(schema, overflowAsNull, e)
        && d.t1.cur < |d.t1.blocks| && d.f1 == d.FalseStart() && d.f1.cur < |d.f1.blocks| && d.M < |d.f1.blocks|
        && builder.fn == d.Done(x.v, value1, ValueParts(x.t))
        && v.value == CodeGenValue(Reg(d.f1.regs), Reg(d.f1.regs + 1), if x.t == Varchar then Reg(d.f1.regs + 2)
          else NO_LENGTH)
      decreases e, 4
    {
      hide Grown, Met, Fn.Open, BoundedAll, Meaning, ComputesFrom, Phis, Pairs, Compilable, WellTyped;
      ghost var b := builder.fn;
      BlocksCreated(b);
      var isNullBlock := builder.CreateBlock();
      var isNotNullBlock := builder.CreateBlock();
      var mergeBlock := builder.CreateBlock();
      ghost var c := builder.fn;
      GrownStart(c);
      FirstArmOpen(b, c, value1.isNull);
      builder.CreateCondBr(value1.isNull, isNullBlock, isNotNullBlock);
      builder.SetInsertPoint(isNullBlock);
      var value2, t1 := VisitArm(e, mergeBlock);
      d := Diamond(b, value1.isNull, c, t1, t1);
      if value2.None? {
        return None, d, Assume(ctx => true);
      }
      x := G(e, value2.value);
      var nullEnd := builder.fn.cur;
      SecondArmOpen(b, c, value1.isNull, t1);
      builder.SetInsertPoint(isNotNullBlock);
      ghost var f1 := builder.fn;
      GrownStart(f1);
      builder.CreateBr(mergeBlock);
      d := Diamond(b, value1.isNull, c, t1, f1);
      MergeBlockThere(d);
      builder.SetInsertPoint(mergeBlock);
      var value := CreatePhis(nullEnd, value2.value, isNotNullBlock, value1, ValueParts(TypeOf(e)));
      v := Some(value);
    }

    method VisitCoalesce(value1Expr: Expr, value2Expr: Expr) returns (v: Option<CodeGenValue>)
      requires builder.fn.Open() && WellTyped(Coalesce(value1Expr, value2Expr), schema)
      modifies builder
      ensures Visited(schema, overflowAsNull, old(builder.fn), builder.fn, Coalesce(value1Expr, value2Expr), v)
      decreases Coalesce(value1Expr, value2Expr), 0
    {
      hide Grown, Met, Fn.Open, BoundedAll, Meaning, ComputesFrom, Diamond.Created, Diamond.TrueStart,
        Diamond.FalseStart, Diamond.Done, Compilable, WellTyped;
      CoalesceTyped(value1Expr, value2Expr, schema);
      ghost var a := builder.fn;
      var value1 := VisitExpr(value1Expr);
      if value1.None? {
        return None;
      }
      ghost var b, g := builder.fn, G(value1Expr, value1.value);
      TranslatesOpen(schema, overflowAsNull, a, b, value1Expr, value1.value);
      ghost var d, x;
      v, d, x := CoalesceDiamond(value1.value, value2Expr);
      if v.Some? {
        OfCoalesce(schema, overflowAsNull, value1Expr, value2Expr);
        CoalesceComputes(schema, a, d, g, x, G(Coalesce(value1Expr, value2Expr), v.value));
      }
    }

    // ---------- columns ----------

    method GetDictionaryVectorValue(ty: Type, col: nat) returns (v: CodeGenValue, ghost c1: Fn, ghost c2: Fn)
      requires builder.fn.cur < |builder.fn.blocks|
      modifies builder
      ensures DictionaryCode(old(builder.fn), c1, c2, builder.fn, ty, col)
      ensures builder.fn.cur == old(builder.fn).cur && |builder.fn.blocks| == |old(builder.fn).blocks|
      ensures v == CodeGenValue(Reg(old(builder.fn).regs), Const(VBool(false)), if ty == Varchar then Reg(c2.regs)
        else NO_LENGTH)
    {
      c1, c2 := builder.fn, builder.fn;
      var length := NO_LENGTH;
      if ty == Varchar {
        var lengthSlot := builder.CreateAlloca();
        builder.CreateStore(Const(VInt(0)), lengthSlot);
        c1 := builder.fn;
        var data := builder.Create(DictionaryGetI(builder.fn.regs, col, Some(lengthSlot)));
        c2 := builder.fn;
        length := builder.CreateLoad(lengthSlot);
        v := CodeGenValue(data, Const(VBool(false)), length);
      } else {
        var data := builder.Create(DictionaryGetI(builder.fn.regs, col, None));
        c2 := builder.fn;
        v := CodeGenValue(data, Const(VBool(false)), NO_LENGTH);
      }
    }

    method FlatVectorValue(ty: Type, col: nat) returns (v: CodeGenValue, ghost c1: Fn, ghost c2: Fn, ghost c3: Fn)
      requires builder.fn.cur < |builder.fn.blocks|
      modifies builder
      ensures FlatCode(old(builder.fn), c1, c2, c3, builder.fn, ty, col)
      ensures builder.fn.cur == old(builder.fn).cur && |builder.fn.blocks| == |old(builder.fn).blocks|
      ensures v == CodeGenValue(Reg(c3.regs), Const(VBool(false)), if ty == Varchar then Reg(c2.regs) else NO_LENGTH)
    {
      c1, c2, c3 := builder.fn, builder.fn, builder.fn;
      if ty == Varchar {
        var startOffset := builder.Create(OffsetLoadI(builder.fn.regs, col, false));
        c1 := builder.fn;
        var endOffset := builder.Create(OffsetLoadI(builder.fn.regs, col, true));
        c2 := builder.fn;
        var length := builder.Create(SubI(builder.fn.regs, endOffset, startOffset));
        c3 := builder.fn;
        var data := builder.Create(ColumnPtrI(builder.fn.regs, col, startOffset));
        v := CodeGenValue(data, Const(VBool(false)), length);
      } else {
        var data := builder.Create(ColumnLoadI(builder.fn.regs, col));
        v := CodeGenValue(data, Const(VBool(false)), NO_LENGTH);
      }
    }

    /** The diamond that tells dictionary vectors from flat ones. */
    method FieldDiamond(ty: Type, col: nat, condition: Operand, ghost a: Fn)
                        returns (value: CodeGenValue, ghost f: FieldCode)
      requires IsAdd(a, IsDictionaryI(a.regs, col), builder.fn) && condition == Reg(a.regs)
      modifies builder
      ensures f.b == a && f.d.base == old(builder.fn) && f.Arms(ty, col) && builder.fn == f.Done(ty) &&
        value == f.Merged(ty)
      ensures builder.fn.cur < |builder.fn.blocks|
    {
      hide DictionaryCode, FlatCode, Phis, Pairs;
      ghost var b := builder.fn;
      var trueBlock := builder.CreateBlock();
      var falseBlock := builder.CreateBlock();
      var mergeBlock := builder.CreateBlock();
      ghost var c := builder.fn;
      builder.CreateCondBr(condition, trueBlock, falseBlock);
      builder.SetInsertPoint(trueBlock);
      var dictionaryValue, x1, x2 := GetDictionaryVectorValue(ty, col);
      ghost var t1 := builder.fn;
      builder.CreateBr(mergeBlock);
      builder.SetInsertPoint(falseBlock);
      var flatValue, y1, y2, y3 := FlatVectorValue(ty, col);
      ghost var f1 := builder.fn;
      builder.CreateBr(mergeBlock);
      builder.SetInsertPoint(mergeBlock);
      value := CreatePhis(trueBlock, dictionaryValue, falseBlock, flatValue, Parts(false, ty == Varchar));
      f := FieldCode(a, Diamond(b, condition, c, t1, f1), x1, x2, y1, y2, y3);
    }

    method VisitField(ty: Type, col: nat) returns (v: Option<CodeGenValue>)
      requires builder.fn.Open() && WellTyped(Field(ty, col), schema)
      modifies builder
      ensures Visited(schema, overflowAsNull, old(builder.fn), builder.fn, Field(ty, col), v)
    {
      hide Grown, Met, Fn.Open, BoundedAll, Meaning, ComputesFrom, Raw, FieldCode.Arms, FieldCode.Done;
      ghost var a := builder.fn;
      OpenCur(a);
      var condition := builder.Create(IsDictionaryI(builder.fn.regs, col));
      var value, f := FieldDiamond(ty, col, condition, a);
      ghost var z := builder.fn;
      var isNull := builder.Create(IsBitNullI(builder.fn.regs, col));
      var result := CodeGenValue(value.data, isNull, value.length);
      v := Some(result);
      OfField(schema, overflowAsNull, ty, col);
      FieldComputes(schema, f, builder.fn, ty, col, G(Field(ty, col), result));
    }

    // ---------- functions ----------

    /** The goals met so far are the arguments' meanings. */
    ghost predicate ArgGoals(args: seq<Expr>, gs: seq<Goal>)
      requires forall j | 0 <= j < |args| :: WellTyped(args[j], schema)
    {
      |gs| <= |args| && forall j | 0 <= j < |gs| ::
        Compilable(args[j]) && gs[j].t == TypeOf(args[j]) && gs[j].sem == Meaning(schema, overflowAsNull, args[j])
    }

    /** Visit the arguments left to right, pushing operands and joining null flags. */
    method GetFunctionArgValues(sig: FnSig, args: seq<Expr>, variant: bool, ghost e: Expr)
      returns (argVals: Option<seq<Operand>>, isAnyNull: Operand, ghost gs: seq<Goal>)
      requires builder.fn.Open() && e == Func(sig, args) && WellTyped(e, schema)
      modifies builder
      ensures argVals.Some? <==> Compilable(e)
      ensures argVals.Some? ==>
        && |gs| == |args| && ArgGoals(args, gs)
        && Computes(schema, old(builder.fn), builder.fn, gs + [Flag(isAnyNull, Joined(gs, Joins(sig, variant)))])
        && argVals.value == OpsOf(sig.params, Values(gs), PassesNulls(sig, variant))
      decreases e, 0
    {
      hide Computes, Fn.Open, OpsOf, Joined, Flag, BoundedAll, Meaning;
      ghost var a := builder.fn;
      var joins := Joins(sig, variant);
      isAnyNull := Const(VBool(false));
      gs := [];
      var vals := [];
      FirstFlag(schema, a, joins);
      OpsNone(sig.params, PassesNulls(sig, variant));
      for i := 0 to |args|
        invariant |gs| == i && ArgGoals(args, gs) && vals ==
          OpsOf(sig.params[..i], Values(gs), PassesNulls(sig, variant))
        invariant Computes(schema, a, builder.fn, gs + [Flag(isAnyNull, Joined(gs, joins))])
        invariant !joins ==> isAnyNull == Const(VBool(false))
      {
        ghost var p := builder.fn;
        ComputesOpen(schema, a, p, gs + [Flag(isAnyNull, Joined(gs, joins))]);
        var result := VisitExpr(args[i]);
        if result.None? {
          return None, isAnyNull, gs;
        }
        ghost var b, g := builder.fn, G(args[i], result.value);
        TranslatesOpen(schema, overflowAsNull, p, b, args[i], result.value);
        ghost var before := isAnyNull;
        if joins {
          isAnyNull := builder.CreateOr(isAnyNull, result.value.isNull);
        }
        NextArg(schema, a, p, b, builder.fn, gs, g, before, isAnyNull, joins);
        OpsMore(sig.params[..i], Values(gs), sig.params[i], result.value, PassesNulls(sig, variant));
        assert sig.params[..i] + [sig.params[i]] == sig.params[..i + 1] &&
          Values(gs) + [result.value] == Values(gs + [g]);
        vals := vals + OpOne(sig.params[i], result.value, PassesNulls(sig, variant));
        gs := gs + [g];
      }
      assert sig.params[..|args|] == sig.params;
      argVals := Some(vals);
    }

    /** Out-slots, the call itself, and the loads after it. */
    method CallFunction(sig: FnSig, variant: bool, argVals: seq<Operand>, isAnyNull: Operand, overflow: Option<nat>)
      returns (v: CodeGenValue, ghost x: CallCode)
      requires builder.fn.cur < |builder.fn.blocks| && (variant <==> overflow.Some?)
      modifies builder
      ensures x.b == old(builder.fn) && x.c == builder.fn && x.Built(sig, variant, argVals, overflow, isAnyNull) &&
        v == x.Result(sig, variant, isAnyNull)
    {
      hide Fn.Add, Fn.Ins;
      ghost var b := builder.fn;
      var isNull, nullSlot := isAnyNull, None;
      if ReturnsNull(sig) {
        var slot := builder.CreateAlloca();
        builder.CreateStore(Const(VBool(false)), slot);
        nullSlot := Some(slot);
      }
      ghost var b1 := builder.fn;
      var length, lenSlot := NO_LENGTH, None;
      if sig.ret == Varchar {
        var slot := builder.CreateAlloca();
        builder.CreateStore(Const(VInt(0)), slot);
        lenSlot := Some(slot);
      }
      ghost var b2 := builder.fn;
      var data := builder.Create(CallFnI(builder.fn.regs, sig, variant, argVals, lenSlot, nullSlot, overflow));
      ghost var c1 := builder.fn;
      if lenSlot.Some? {
        length := builder.CreateLoad(lenSlot.value);
      }
      ghost var c2 := builder.fn;
      if nullSlot.Some? {
        isNull := builder.CreateLoad(nullSlot.value);
      }
      ghost var c3, c4 := builder.fn, builder.fn;
      if variant {
        var overflowed := builder.CreateLoad(overflow.value);
        c4 := builder.fn;
        isNull := builder.CreateOr(isNull, overflowed);
      }
      x := CallCode(b, b1, b2, c1, c2, c3, c4, builder.fn);
      v := CodeGenValue(data, isNull, length);
    }

    method VisitFunc(sig: FnSig, args: seq<Expr>) returns (v: Option<CodeGenValue>)
      requires builder.fn.Open() && WellTyped(Func(sig, args), schema)
      modifies builder
      ensures Visited(schema, overflowAsNull, old(builder.fn), builder.fn, Func(sig, args), v)
      decreases Func(sig, args), 1
    {
      hide Computes, Fn.Open, Fn.Ins, OpsOf, Joined, Flag, Meaning, Grown, CallCode.Built, CallCode.Result;
      ghost var a := builder.fn;
      OpenCur(a);
      var variant := overflowAsNull && sig.hasNullVariant;
      var overflow := None;
      if variant {
        var slot := builder.CreateAlloca();
        builder.CreateStore(Const(VBool(false)), slot);
        overflow := Some(slot);
      }
      ghost var a1 := builder.fn;
      SlotOpen(a, a1, variant);
      var argVals, isAnyNull, gs := GetFunctionArgValues(sig, args, variant, Func(sig, args));
      if argVals.None? {
        return None;
      }
      ghost var b := builder.fn;
      ComputesOpen(schema, a1, b, gs + [Flag(isAnyNull, Joined(gs, Joins(sig, variant)))]);
      var ops := argVals.value + Trailing(sig, variant, isAnyNull);
      var value, x := CallFunction(sig, variant, ops, isAnyNull, overflow);
      v := Some(value);
      ghost var k := G(Func(sig, args), value);
      AnyBelow(schema, a1, x, sig, variant, ops, overflow, isAnyNull, gs);
      forall ctx | ContextOk(ctx, schema) ensures k.sem(ctx) == FuncSql(ctx.kernels, sig, variant, Sems(gs, ctx)) {
        OfFunc(schema, overflowAsNull, sig, args, ctx);
        assert Sems(gs, ctx) == MeaningsAt(schema, overflowAsNull, args, ctx);
      }
      FuncComputes(schema, a, a1, x, sig, variant, overflow, isAnyNull, gs, k);
    }

    // ---------- IN ----------

    /** Compare the value with one list element. */
    method InExprHelper(value: CodeGenValue, arg: CodeGenValue, ty: Type, ghost g0: Goal, ghost g: Goal)
                        returns (tmpCmpData: Operand, tmpCmpNull: Operand)
      requires builder.fn.Open() && BoundedAll([g0, g], builder.fn.regs) && g0.t == ty && g.t == ty && g0.v == value &&
        g.v == arg && InSupported(ty)
      modifies builder
      ensures ComputesFrom(schema, old(builder.fn), builder.fn, [g0, g],
        [Goal(Boolean, CodeGenValue(tmpCmpData, tmpCmpNull, NO_LENGTH), Compared(g0, g))])
    {
      hide Grown, Met, Fn.Open, Fn.Add, Fn.Ins, ComputesFrom, BoundedAll, EqualCode.D, EqualCode.Built;
      ghost var b := builder.fn;
      OpenCur(b);
      if ty == Varchar {
        tmpCmpNull := builder.CreateOr(value.isNull, arg.isNull);
        ghost var e;
        tmpCmpData, e := StringEqual(value, arg, tmpCmpNull, b);
        DoneCur(e, value, arg);
        StrElement(schema, e, g0, g);
      } else {
        tmpCmpData := builder.CreateICmp(EQ, value.data, arg.data);
        ghost var c1 := builder.fn;
        tmpCmpNull := builder.CreateOr(value.isNull, arg.isNull);
        IntElement(schema, b, c1, builder.fn, g0, g);
      }
    }

    /** The code for one list element, up to the decision; `a` and `pend` describe the surrounding code. */
    method InElement(arg: Expr, value: CodeGenValue, hasNull: nat, ghost g0: Goal, ghost a: Fn, ghost pend: set<nat>)
      returns (decision: Option<Operand>, ghost el: Element)
      requires builder.fn.Open() && WellTyped(arg, schema) && InSupported(TypeOf(arg)) && g0.t == TypeOf(arg) &&
        g0.v == value
      requires Bounded(value, builder.fn.regs) && hasNull < builder.fn.slots && Grows(a, builder.fn, pend)
      modifies builder
      ensures decision.Some? <==> Compilable(arg)
      ensures decision.Some? ==>
        && el.st == old(builder.fn) && el.e == builder.fn && el.Built(schema, g0, hasNull) &&
          decision.value == el.Decision()
        && el.g.sem == Meaning(schema, overflowAsNull, arg) && Grows(a, builder.fn, pend) &&
          builder.fn.cur < |builder.fn.blocks|
        && Sub(old(builder.fn).blocks, builder.fn.blocks)
      decreases arg, 3
    {
      hide Grown, Grows, Met, Fn.Open, Fn.Add, Fn.Ins, ComputesFrom, BoundedAll, Meaning, Compared, Sub;
      ghost var st := builder.fn;
      var argValue := VisitExpr(arg);
      ghost var v := builder.fn;
      if argValue.None? {
        return None, Element(st, v, v, v, v, v, v, v, g0, g0);
      }
      ghost var g := G(arg, argValue.value);
      ElementBounds(schema, st, v, g0, g);
      var tmpCmpData, tmpCmpNull := InExprHelper(value, argValue.value, TypeOf(arg), g0, g);
      ghost var w, q := builder.fn, Goal(Boolean, CodeGenValue(tmpCmpData, tmpCmpNull, NO_LENGTH), Compared(g0, g));
      ElementGrows(schema, a, st, v, w, g0, g, q, pend);
      var had := builder.CreateLoad(hasNull);
      ghost var x1 := builder.fn;
      var has := builder.CreateOr(argValue.value.isNull, had);
      ghost var x2 := builder.fn;
      builder.CreateStore(has, hasNull);
      ghost var x3 := builder.fn;
      var notNull := builder.CreateNot(tmpCmpNull);
      ghost var x4 := builder.fn;
      var match1 := builder.CreateAnd(notNull, tmpCmpData);
      decision := Some(match1);
      el := Element(st, v, w, x1, x2, x3, x4, builder.fn, g, q);
      TailGrows(a, el, hasNull, pend);
      SubTrans(st.blocks, w.blocks, builder.fn.blocks);
    }

    /** Slots for the result, its null flag and "an element was null"; then the blocks. */
    method InSetup(n: nat) returns (ghost s1: Fn, ghost s2: Fn, ghost s3: Fn)
      requires builder.fn.Open()
      modifies builder
      ensures var a := old(builder.fn); var p := builder.fn;
        && SetupCode(a, s1, s2, s3) && p == s3.(blocks := p.blocks) && s3.blocks <= p.blocks &&
          |p.blocks| == |a.blocks| + 3 + n
        && Grows(a, p, Pending(|a.blocks|, |a.blocks| + 3, |a.blocks| + 3 + n)) && p.slots == a.slots + 3 &&
          p.regs == a.regs
    {
      hide Grows, Fn.Open, Fn.Ins, Pending;
      ghost var a := builder.fn;
      OpenCur(a);
      var inArray := builder.CreateAlloca();
      builder.CreateStore(Const(VBool(false)), inArray);
      s1 := builder.fn;
      var isNull := builder.CreateAlloca();
      builder.CreateStore(Const(VBool(false)), isNull);
      s2 := builder.fn;
      var hasNull := builder.CreateAlloca();
      builder.CreateStore(Const(VBool(false)), hasNull);
      s3 := builder.fn;
      SetupGrows(a, s1, s2, s3);
      var trueBlock := builder.CreateBlock();
      var falseBlock := builder.CreateBlock();
      var mergeBlock := builder.CreateBlock();
      for i := 0 to n
        invariant builder.fn == s3.(blocks := builder.fn.blocks) && s3.blocks <= builder.fn.blocks &&
          |builder.fn.blocks| == |a.blocks| + 3 + i
        invariant Grows(a, builder.fn, Pending(|a.blocks|, |a.blocks| + 3, |a.blocks| + 3 + i))
      {
        OneMoreBlock(a, builder.fn, |a.blocks|, |a.blocks| + 3);
        var condBlock := builder.CreateBlock();
      }
    }

    /** The elements from the first comparison to the true block. `first` is the number of the true block. */
    method InChain(es: seq<Expr>, value: CodeGenValue, hasNull: nat, first: nat, ghost g0: Goal, ghost a: Fn,
                   ghost e: Expr)
      returns (ok: bool, ghost els: seq<Element>)
      requires e == In(es) && WellTyped(e, schema) && InSupported(TypeOf(es[0])) && g0.t == TypeOf(es[0]) &&
        g0.v == value
      requires first == |a.blocks| && builder.fn.cur == first + 3 && Fresh(builder.fn) && LaterThan(a, builder.fn) &&
        hasNull == a.slots + 2
      requires Bounded(value, builder.fn.regs) && Grows(a, builder.fn, Pending(first, first + 4, first + 2 + |es|))
      modifies builder
      ensures ok <==> forall i | 1 <= i < |es| :: Compilable(es[i])
      ensures ok ==>
        && |els| == |es| - 1 && ChainTo(schema, a, g0, els, |els|, builder.fn.blocks) &&
          Sub(old(builder.fn).blocks, builder.fn.blocks)
        && (forall j | 0 <= j < |els| :: els[j].g.sem == Meaning(schema, overflowAsNull, es[j + 1]))
        && builder.fn.cur == first && Fresh(builder.fn) && LaterThan(a, builder.fn) &&
          Grows(a, builder.fn, {first + 1, first + 2})
      decreases e, 0
    {
      hide Grows, Grown, Sub, Fn.Open, Meaning, Element.Built, Element.In, ElementAt, Pending, Fresh, Fn.Close,
        Compilable, WellTyped, ElementsMean;
      InTyped(es, schema);
      var n := |es| - 1;
      els := [];
      NoElements(schema, overflowAsNull, es);
      SubSame(builder.fn.blocks);
      ghost var start := builder.fn;
      for i := 0 to n
        invariant |els| == i && ChainTo(schema, a, g0, els, n, builder.fn.blocks) &&
          Sub(start.blocks, builder.fn.blocks)
        invariant ElementsMean(schema, overflowAsNull, es, els)
        invariant Fresh(builder.fn) && LaterThan(a, builder.fn) && Bounded(value, builder.fn.regs)
        invariant builder.fn.cur == if i < n then first + 3 + i else first
        invariant Grows(a, builder.fn, if i < n then Pending(first, first + 4 + i, first + 3 + n)
          else {first + 1, first + 2})
      {
        ghost var st := builder.fn;
        FreshOpen(st);
        var decision, el := InElement(es[i + 1], value, hasNull, g0, a, Pending(first, first + 4 + i, first + 3 + n));
        if decision.None? {
          return false, els;
        }
        var elseBranch := if i + 1 < n then first + 4 + i else first + 1;
        ElementJumps(schema, a, g0, els, el, n, first + 3 + n);
        ElementRegs(schema, el, g0, a.slots + 2);
        OneMoreElement(schema, overflowAsNull, es, els, el);
        builder.CreateCondBr(decision.value, first, elseBranch);
        builder.SetInsertPoint(if i + 1 < n then first + 4 + i else first);
        assert builder.fn.regs == el.e.regs && builder.fn.slots == el.e.slots;
        assert LaterThan(a, builder.fn) && Bounded(value, builder.fn.regs);
        SubTrans(start.blocks, st.blocks, builder.fn.blocks);
        els := els + [el];
      }
      AllElements(schema, overflowAsNull, es, els);
      ok := true;
    }

    /** The true, false and merge blocks. */
    method InEnds(inArray: nat, isNull: nat, hasNull: nat, first: nat, ghost x0: InCode)
                  returns (v: CodeGenValue, ghost x: InCode)
      requires first == |x0.a.blocks| && inArray == x0.a.slots && isNull == x0.a.slots + 1 && hasNull == x0.a.slots + 2
      requires builder.fn.cur == first && Fresh(builder.fn) && LaterThan(x0.a, builder.fn) &&
        Grows(x0.a, builder.fn, {first + 1, first + 2})
      modifies builder
      ensures x.EndCode() && Grown(x.a, x.done) && x.done == builder.fn &&
        Sub(old(builder.fn).blocks, builder.fn.blocks)
      ensures x.a == x0.a && x.p == x0.p && x.v0 == x0.v0 && x.v1 == x0.v1 && x.els == x0.els && x.g0 == x0.g0
      ensures v == CodeGenValue(Reg(x.m.regs), Reg(x.m1.regs), NO_LENGTH)
    {
      hide Grows, Grown, Sub, Fn.Open, InCode.EndCode;
      var falseBlock, mergeBlock := first + 1, first + 2;
      ghost var tr := builder.fn;
      EndsThere(x0.a, tr, {first + 1, first + 2}, first + 2);
      builder.CreateStore(Const(VBool(true)), inArray);
      ghost var tr1 := builder.fn;
      builder.CreateBr(mergeBlock);
      builder.SetInsertPoint(falseBlock);
      ghost var fa := builder.fn;
      var someNull := builder.CreateLoad(hasNull);
      ghost var fa1 := builder.fn;
      var valueNull := builder.CreateLoad(isNull);
      ghost var fa2 := builder.fn;
      var eitherNull := builder.CreateOr(someNull, valueNull);
      ghost var fa3 := builder.fn;
      builder.CreateStore(eitherNull, isNull);
      ghost var fa4 := builder.fn;
      builder.CreateBr(mergeBlock);
      builder.SetInsertPoint(mergeBlock);
      ghost var m := builder.fn;
      var data := builder.CreateLoad(inArray);
      ghost var m1 := builder.fn;
      var resultNull := builder.CreateLoad(isNull);
      v := CodeGenValue(data, resultNull, NO_LENGTH);
      x := InCode(x0.a, x0.p, x0.v0, x0.v1, x0.els, tr, tr1, fa, fa1, fa2, fa3, fa4, m, m1, builder.fn, x0.g0);
      EndsGrow(x);
    }

    method VisitIn(es: seq<Expr>) returns (v: Option<CodeGenValue>)
      requires builder.fn.Open() && WellTyped(In(es), schema)
      modifies builder
      ensures Visited(schema, overflowAsNull, old(builder.fn), builder.fn, In(es), v)
      decreases In(es), 1
    {
      hide Grows, Grown, Sub, Met, Fn.Open, Fn.Close, Meaning, ComputesFrom, ChainTo, Fresh, Pending, SetupCode,
        InCode.EndCode, InSql, Compilable, WellTyped;
      InTyped(es, schema);
      ghost var a := builder.fn;
      var first := |builder.fn.blocks|;
      var inArray, isNull, hasNull := builder.fn.slots, builder.fn.slots + 1, builder.fn.slots + 2;
      var s1, s2, s3 := InSetup(|es| - 1);
      ghost var p, pend := builder.fn, Pending(first, first + 3, first + 2 + |es|);
      SP.GrowsOpen(a, p, pend);
      var value := VisitExpr(es[0]);
      if value.None? || !InSupported(TypeOf(es[0])) {
        return None;
      }
      ghost var v0, g0 := builder.fn, G(es[0], value.value);
      TranslatesOpen(schema, overflowAsNull, p, v0, es[0], value.value);
      builder.CreateStore(value.value.isNull, isNull);
      ghost var v1 := builder.fn;
      EntryReady(schema, a, p, v0, v1, g0, isNull, first, pend);
      builder.CreateBr(first + 3);
      builder.SetInsertPoint(first + 3);
      ghost var entered := builder.fn;
      var ok, els := InChain(es, value.value, hasNull, first, g0, a, In(es));
      if !ok {
        return None;
      }
      ghost var chained := builder.fn;
      ghost var x0 := InCode(a, p, v0, v1, els, chained, chained, chained, chained, chained, chained, chained, chained,
        chained, chained, g0);
      var result, x := InEnds(inArray, isNull, hasNull, first, x0);
      v := Some(result);
      ghost var k := G(In(es), result);
      InWhole(schema, x, s1, s2, s3, k, entered, chained);
      forall ctx | ContextOk(ctx, schema) ensures k.sem(ctx) == InSql(x.g0.sem(ctx), Listed(x.els, ctx)) {
        OfIn(schema, overflowAsNull, es, ctx);
        assert Listed(x.els, ctx) == MeaningsAt(schema, overflowAsNull, es[1..], ctx);
      }
      InComputes(schema, x, s1, s2, s3, k);
    }

    // ---------- CASE ----------

    /** Two blocks and three slots, then a condition and a result block per branch. */
    method SwitchSetup(n: nat)
      requires builder.fn.Open()
      modifies builder
      ensures var a := old(builder.fn); var p := builder.fn;
        && p == a.NewSlots(3).(blocks := p.blocks) && a.blocks <= p.blocks && |p.blocks| == |a.blocks| + 2 + 2 * n
        && Grows(a, p, SP.Ahead(|a.blocks|, |a.blocks| + 2, |a.blocks| + 2 + 2 * n))
    {
      hide Grows, Fn.Open, SP.Ahead;
      ghost var a := builder.fn;
      SP.FirstBlocks(a);
      var falseBlock := builder.CreateBlock();
      var mergeBlock := builder.CreateBlock();
      var resultValue := builder.CreateAlloca();
      var resultNull := builder.CreateAlloca();
      var resultLength := builder.CreateAlloca();
      assert builder.fn == a.NewBlock().NewBlock().NewSlots(3);
      for i := 0 to n
        invariant builder.fn == a.NewSlots(3).(blocks := builder.fn.blocks) && a.blocks <= builder.fn.blocks &&
          |builder.fn.blocks| == |a.blocks| + 2 + 2 * i
        invariant Grows(a, builder.fn, SP.Ahead(|a.blocks|, |a.blocks| + 2, |a.blocks| + 2 + 2 * i))
      {
        SP.OneMoreAhead(a, builder.fn, |a.blocks|, |a.blocks| + 2);
        var condBlock := builder.CreateBlock();
        SP.OneMoreAhead(a, builder.fn, |a.blocks|, |a.blocks| + 2);
        var trueBlock := builder.CreateBlock();
      }
    }

    /** A result computed and stored, then a branch to the merge block. */
    method StoreResult(e: Expr, low: nat, mergeBlock: nat, ghost a: Fn, ghost pend: set<nat>)
      returns (ok: bool, ghost tv: Fn, ghost t1: Fn, ghost t2: Fn, ghost t3: Fn, ghost r: Goal)
      requires builder.fn.Open() && WellTyped(e, schema) && low + 2 < builder.fn.slots && Grows(a, builder.fn, pend)
      modifies builder
      ensures ok <==> Compilable(e)
      ensures ok ==>
        && Computes(schema, old(builder.fn), tv, [r]) && r.t == TypeOf(e) && r.sem == Meaning(schema, overflowAsNull, e)
        && SP.StoreCode(tv, t1, t2, t3, low, r.t, r.v) && Grows(a, t3, pend) && Sub(old(builder.fn).blocks, t3.blocks)
        && t3.cur < |t3.blocks| && builder.fn == t3.Close(Br(mergeBlock)) && old(builder.fn).regs <= t3.regs &&
          old(builder.fn).slots <= t3.slots
      decreases e, 3
    {
      hide Grows, Grown, Sub, Met, Fn.Open, Fn.Ins, ComputesFrom, Meaning, Compilable, WellTyped;
      ghost var ts := builder.fn;
      var result := VisitExpr(e);
      tv, t1, t2, t3, r := builder.fn, builder.fn, builder.fn, builder.fn, Assume(ctx => true);
      ok := result.Some?;
      if ok {
        r := G(e, result.value);
        TranslatesOpen(schema, overflowAsNull, ts, tv, e, result.value);
        ArmGrows(schema, a, ts, tv, r, pend);
        builder.CreateStore(result.value.data, low);
        t1 := builder.fn;
        builder.CreateStore(result.value.isNull, low + 1);
        t2 := builder.fn;
        if TypeOf(e) == Varchar {
          builder.CreateStore(result.value.length, low + 2);
        }
        t3 := builder.fn;
        SP.StoreGrows(a, tv, t1, t2, t3, low, r.t, r.v, pend);
        SubTrans(ts.blocks, tv.blocks, t3.blocks);
        OpenCur(t3);
        builder.CreateBr(mergeBlock);
      }
    }

    /** The condition of a WHEN and the branch into its result block. */
    method SwitchCondition(cond: Expr, i: nat, n: nat, first: nat, ghost a: Fn)
                           returns (ok: bool, ghost v: Fn, ghost d1: Fn, ghost d: Fn, ghost g: Goal)
      requires WellTyped(cond, schema) && TypeOf(cond) == Boolean && i < n && first == |a.blocks| && Fresh(builder.fn)
      requires Grows(a, builder.fn, SP.Ahead(first, first + 3 + 2 * i, first + 2 + 2 * n))
      modifies builder
      ensures ok <==> Compilable(cond)
      ensures ok ==>
        && Computes(schema, old(builder.fn), v, [g]) && g.t == Boolean &&
          g.sem == Meaning(schema, overflowAsNull, cond) && DecideCode(v, d1, d, g.v)
        && d.cur < |d.blocks| && builder.fn == d.Close(CondBr(Reg(d1.regs), SP.ThenAt(a, i),
          SP.WhenAt(a, n, i + 1))).At(SP.ThenAt(a, i))
        && Grows(a, builder.fn, SP.Ahead(first, first + 4 + 2 * i, first + 2 + 2 * n)) && Fresh(builder.fn)
        && Sub(old(builder.fn).blocks, d.blocks) && Sub(d.blocks, builder.fn.blocks)
        && old(builder.fn).regs <= builder.fn.regs && old(builder.fn).slots <= builder.fn.slots
      decreases cond, 3
    {
      hide Grows, Grown, Sub, Met, Fn.Open, Fn.Ins, ComputesFrom, Meaning, DecideCode, SP.Ahead, Fresh, Fn.Close, Fn.At,
        Compilable, WellTyped;
      ghost var st, hi := builder.fn, first + 2 + 2 * n;
      FreshOpen(st);
      var evCond := VisitExpr(cond);
      v, d1, d, g := builder.fn, builder.fn, builder.fn, Assume(ctx => true);
      ok := evCond.Some?;
      if ok {
        g := G(cond, evCond.value);
        TranslatesOpen(schema, overflowAsNull, st, v, cond, evCond.value);
        var decision;
        decision, d1 := Decide(evCond.value, g, st);
        d := builder.fn;
        DecisionGrows(a, st, d, SP.Ahead(first, first + 3 + 2 * i, hi));
        SP.ConditionJumps(a, d, decision, i, n, hi);
        JumpKeeps(d, CondBr(decision, first + 3 + 2 * i, if i + 1 < n then first + 4 + 2 * i else first), first + 3 +
          2 * i);
        builder.CreateCondBr(decision, first + 3 + 2 * i, if i + 1 < n then first + 4 + 2 * i else first);
        builder.SetInsertPoint(first + 3 + 2 * i);
      }
    }

    /** One WHEN: condition, decision, result. */
    method SwitchBranch(cond: Expr, res: Expr, i: nat, n: nat, low: nat, first: nat, ghost a: Fn)
                        returns (ok: bool, ghost br: SP.Branch)
      requires WellTyped(cond, schema) && WellTyped(res, schema) && TypeOf(cond) == Boolean && i < n
      requires first == |a.blocks| && low == a.slots && Fresh(builder.fn) && LaterThan(a, builder.fn) &&
        builder.fn.cur == SP.WhenAt(a, n, i)
      requires Grows(a, builder.fn, SP.Ahead(first, first + 3 + 2 * i, first + 2 + 2 * n))
      modifies builder
      ensures ok <==> Compilable(cond) && Compilable(res)
      ensures ok ==> BranchReady(schema, overflowAsNull, a, cond, res, br, i, n, old(builder.fn), builder.fn)
      decreases (cond, res), 4
    {
      hide Grows, Grown, Sub, Met, Fn.Open, Fn.Ins, Computes, Meaning, DecideCode, SP.StoreCode, SP.Ahead, Fresh,
        SP.Branch.In;
      ghost var st, hi := builder.fn, first + 2 + 2 * n;
      ghost var v, d1, d, g;
      ok, v, d1, d, g := SwitchCondition(cond, i, n, first, a);
      br := SP.Branch(st, v, d1, d, g, st, st, st, st, st, g);
      if ok {
        ghost var ts := builder.fn;
        FreshOpen(ts);
        ghost var tv, t1, t2, t3, r;
        ok, tv, t1, t2, t3, r := StoreResult(res, low, first + 1, a, SP.Ahead(first, first + 4 + 2 * i, hi));
        br := SP.Branch(st, v, d1, d, g, ts, tv, t1, t2, t3, r);
        if ok {
          SP.ResultLeaves(a, t3, i, n, hi);
          builder.SetInsertPoint(if i + 1 < n then first + 4 + 2 * i else first);
          BranchDone(a, br, i, n, builder.fn.blocks);
        }
      }
    }

    /** All branches, up to the else block. */
    method SwitchBranches(ws: seq<(Expr, Expr)>, els: Expr, low: nat, first: nat, ghost a: Fn, ghost e: Expr)
                          returns (ok: bool, ghost brs: seq<SP.Branch>)
      requires e == Switch(ws, els) && WellTyped(e, schema) && first == |a.blocks| && low == a.slots &&
        Fresh(builder.fn) && LaterThan(a, builder.fn)
      requires builder.fn.cur == first + 2 && Grows(a, builder.fn, SP.Ahead(first, first + 3, first + 2 + 2 * |ws|))
      modifies builder
      ensures ok <==> forall i | 0 <= i < |ws| :: Compilable(ws[i].0) && Compilable(ws[i].1)
      ensures ok ==>
        && |brs| == |ws| && SP.BranchesTo(schema, a, TypeOf(els), brs, |brs|, builder.fn.blocks) &&
          Sub(old(builder.fn).blocks, builder.fn.blocks)
        && (forall j | 0 <= j < |ws| ::
          brs[j].g.sem == Meaning(schema, overflowAsNull, ws[j].0) &&
          brs[j].r.sem == Meaning(schema, overflowAsNull, ws[j].1))
        && Fresh(builder.fn) && LaterThan(a, builder.fn) && builder.fn.cur == first && Grows(a, builder.fn, {first + 1})
      decreases e, 0
    {
      hide Grows, Sub, Fn.Open, Meaning, SP.BranchAt, SP.Ahead, Fresh, Fn.Close, Compilable, WellTyped;
      SwitchTyped(ws, els, schema);
      var n := |ws|;
      brs := [];
      SubSame(builder.fn.blocks);
      ghost var start := builder.fn;
      for i := 0 to n
        invariant |brs| == i && SP.BranchesTo(schema, a, TypeOf(els), brs, n, builder.fn.blocks) &&
          Sub(start.blocks, builder.fn.blocks)
        invariant forall j | 0 <= j < i ::
          brs[j].g.sem == Meaning(schema, overflowAsNull, ws[j].0) &&
          brs[j].r.sem == Meaning(schema, overflowAsNull, ws[j].1)
        invariant forall j | 0 <= j < i :: Compilable(ws[j].0) && Compilable(ws[j].1)
        invariant Fresh(builder.fn) && LaterThan(a, builder.fn) && builder.fn.cur == SP.WhenAt(a, n, i)
        invariant Grows(a, builder.fn, if i < n then SP.Ahead(first, first + 3 + 2 * i, first + 2 + 2 * n)
          else {first + 1})
      {
        ghost var before := builder.fn;
        ghost var br;
        ok, br := SwitchBranch(ws[i].0, ws[i].1, i, n, low, first, a);
        if !ok {
          return false, brs;
        }
        SP.BranchesMore(schema, a, TypeOf(els), brs, n, before.blocks, builder.fn.blocks);
        SP.BranchesAdd(schema, a, TypeOf(els), brs, br, n, builder.fn.blocks);
        SubTrans(start.blocks, before.blocks, builder.fn.blocks);
        brs := brs + [br];
      }
      ok := true;
    }

    /** The else block's result and the merge block. */
    method SwitchEnds(els: Expr, low: nat, first: nat, ghost a: Fn, ghost p: Fn, ghost brs: seq<SP.Branch>)
                      returns (v: Option<CodeGenValue>, ghost x: SP.SwitchCode)
      requires WellTyped(els, schema) && first == |a.blocks| && low == a.slots && Fresh(builder.fn) &&
        LaterThan(a, builder.fn) && builder.fn.cur == first
      requires Grows(a, builder.fn, {first + 1})
      modifies builder
      ensures v.Some? <==> Compilable(els)
      ensures v.Some? ==>
        && x.a == a && x.p == p && x.brs == brs && x.ty == TypeOf(els) &&
          x.r.sem == Meaning(schema, overflowAsNull, els)
        && x.ElseOk(schema) && x.MergeCode() && v.value == x.Result() && x.done == builder.fn
        && Grown(a, builder.fn) && Sub(old(builder.fn).blocks, builder.fn.blocks)
      decreases els, 4
    {
      hide Grows, Grown, Sub, Met, Fn.Open, Fn.Ins, Computes, Meaning, SP.StoreCode, Fresh;
      ghost var fs := builder.fn;
      FreshOpen(fs);
      var ok, fv, f1, f2, f3, r := StoreResult(els, low, first + 1, a, {first + 1});
      if !ok {
        return None, SP.SwitchCode(a, p, TypeOf(els), brs, fs, fs, fs, fs, fs, r, fs, fs, fs, fs);
      }
      SP.ElseLeaves(a, f3);
      builder.SetInsertPoint(first + 1);
      ghost var m := builder.fn;
      FreshOpen(m);
      var data := builder.CreateLoad(low);
      ghost var m1 := builder.fn;
      var isNull := builder.CreateLoad(low + 1);
      ghost var m2 := builder.fn;
      var length := NO_LENGTH;
      if TypeOf(els) == Varchar {
        length := builder.CreateLoad(low + 2);
      }
      v := Some(CodeGenValue(data, isNull, length));
      x := SP.SwitchCode(a, p, TypeOf(els), brs, fs, fv, f1, f2, f3, r, m, m1, m2, builder.fn);
      SP.MergeGrows(x);
      ElseDone(x, f3, m);
    }

    method VisitSwitch(ws: seq<(Expr, Expr)>, els: Expr) returns (v: Option<CodeGenValue>)
      requires builder.fn.Open() && WellTyped(Switch(ws, els), schema)
      modifies builder
      ensures Visited(schema, overflowAsNull, old(builder.fn), builder.fn, Switch(ws, els), v)
      decreases Switch(ws, els), 1
    {
      hide Grows, Grown, Sub, Met, Fn.Open, Meaning, ComputesFrom, SP.BranchesTo, SP.Ahead, Fresh, SP.SwitchCode.ElseOk,
        SP.SwitchCode.MergeCode;
      ghost var a := builder.fn;
      var first, low := |builder.fn.blocks|, builder.fn.slots;
      SwitchSetup(|ws|);
      ghost var p := builder.fn;
      SetupThere(a, p, SP.Ahead(first, first + 2, first + 2 + 2 * |ws|));
      SP.SwitchEntry(a, p, first, first + 2 + 2 * |ws|);
      builder.CreateBr(first + 2);
      builder.SetInsertPoint(first + 2);
      ghost var entered := builder.fn;
      var ok, brs := SwitchBranches(ws, els, low, first, a, Switch(ws, els));
      if !ok {
        return None;
      }
      ghost var chained := builder.fn;
      ghost var x;
      v, x := SwitchEnds(els, low, first, a, p, brs);
      if v.Some? {
        ghost var k := G(Switch(ws, els), v.value);
        SwitchWhole(schema, x, k, entered, chained);
        forall ctx | ContextOk(ctx, schema) ensures k.sem(ctx) == SP.FirstTrue(x.brs, x.r, ctx, 0) {
          SwitchMeaning(schema, overflowAsNull, ws, els, x, ctx, 0);
        }
        SP.SwitchComputes(schema, x, k);
      }
    }

    method VisitExpr(e: Expr) returns (v: Option<CodeGenValue>)
      requires builder.fn.Open() && WellTyped(e, schema)
      modifies builder
      ensures Visited(schema, overflowAsNull, old(builder.fn), builder.fn, e, v)
      decreases e, 2
    {
      match e
      case Literal(ty, isNull, data) => v := VisitLiteral(ty, isNull, data);
      case Not(x) => v := VisitNot(x);
      case Binary(op, l, r) => v := VisitBinary(op, l, r);
      case IsNull(x) => v := VisitIsNull(x);
      case In(es) => v := VisitIn(es);
      case Func(sig, args) => v := VisitFunc(sig, args);
      case Field(ty, col) => v := VisitField(ty, col);
      case Coalesce(value1, value2) => v := VisitCoalesce(value1, value2);
      case If(cond, ifTrue, ifFalse) => v := VisitIf(cond, ifTrue, ifFalse);
      case Between(value, lower, upper) => v := VisitBetween(value, lower, upper);
      case Switch(ws, els) => v := VisitSwitch(ws, els);
    }

    /** The function for a tree: its code, then a return of data, length and null flag. */
    method CreateFunction(e: Expr) returns (ok: bool)
      requires WellTyped(e, schema) && builder.fn == Fn([Block([], None)], 0, 0, 0)
      modifies builder
      ensures ok <==> Compilable(e)
      ensures ok ==> Implements(schema, overflowAsNull, builder.fn.blocks, e)
    {
      hide Grown, Met, Meaning, ComputesFrom, Implements;
      ghost var a := builder.fn;
      EntryOpen(a);
      var result := VisitExpr(e);
      ok := result.Some?;
      if ok {
        ghost var b := builder.fn;
        TranslatesOpen(schema, overflowAsNull, a, b, e, result.value);
        builder.CreateRet(result.value.data, result.value.length, result.value.isNull);
        FunctionImplements(schema, overflowAsNull, a, b, e, result.value);
      }
    }
  }

  // ---------- the finished function ----------

  /** The machine is at a return whose operands denote `sql`. */
  ghost predicate Returns(blocks: seq<Block>, t: State, ty: Type, sql: Sql) {
    && t.block < |blocks| && t.idx == |blocks[t.block].instrs|
    && match blocks[t.block].term
       case Some(Ret(data, len, isNull)) => Holds(ty, CodeGenValue(data, isNull, len), sql, t)
       case _ => false
  }

  /** Every block ends in a terminator, branches stay inside, and every phi names exactly the block's
      predecessors, once each, ahead of all other instructions. */
  ghost predicate WellFormed(blocks: seq<Block>) {
    && (forall k | 0 <= k < |blocks| :: blocks[k].term.Some?)
    && (forall p: nat, k: nat | IsPred(blocks, p, k) :: k < |blocks|)
    && (forall k | 0 <= k < |blocks| :: PhisOk(blocks, k))
  }

  /** Started at the entry block in any machine state, on any row, the function returns the SQL value of the tree. */
  ghost predicate Implements(schema: seq<Type>, ov: bool, blocks: seq<Block>, e: Expr)
    requires WellTyped(e, schema)
  {
    && WellFormed(blocks)
    && forall ctx, s: State | ContextOk(ctx, schema) && s.block == 0 && s.idx == 0 ::
      ReturnsFrom(ctx, schema, ov, blocks, e, s)
  }

  ghost predicate ReturnsFrom(ctx: Context, schema: seq<Type>, ov: bool, blocks: seq<Block>, e: Expr, s: State)
    requires WellTyped(e, schema) && ContextOk(ctx, schema)
  {
    exists t :: Reaches(ctx, blocks, s, t) && Returns(blocks, t, TypeOf(e), Eval(ctx, schema, ov, e))
  }

  lemma EntryOpen(a: Fn)
    requires a == Fn([Block([], None)], 0, 0, 0)
    ensures a.Open()
  {
  }

  /** Closing the last block leaves a well-formed function. */
  lemma FunctionWellFormed(a: Fn, b: Fn, t: Term)
    requires a == Fn([Block([], None)], 0, 0, 0) && Grown(a, b) && t.Ret? && b.cur < |b.blocks|
    ensures WellFormed(b.Close(t).blocks)
  {
    var z := b.Close(t).blocks;
    forall p: nat, k: nat ensures IsPred(z, p, k) <==> IsPred(b.blocks, p, k) {}
    forall k | 0 <= k < |z| ensures PhisOk(z, k) {
      if k > 0 {
        SamePreds(b.blocks, z, k);
      }
    }
  }

  lemma RetSub(b: Fn, t: Term)
    requires b.Open() && b.cur < |b.blocks|
    ensures Sub(b.blocks, b.Close(t).blocks)
  {
  }

  lemma FunctionImplements(schema: seq<Type>, ov: bool, a: Fn, b: Fn, e: Expr, v: CodeGenValue)
    requires a == Fn([Block([], None)], 0, 0, 0) && WellTyped(e, schema) && Translates(schema, ov, a, b, e, v) &&
      b.cur < |b.blocks|
    ensures Implements(schema, ov, b.Close(Ret(v.data, v.length, v.isNull)).blocks, e)
  {
    hide WellFormed, Grown, Holds, Sub, Compilable, WellTyped;
    var t := Ret(v.data, v.length, v.isNull);
    var z := b.Close(t).blocks;
    FunctionWellFormed(a, b, t);
    var k := GoalOf(schema, ov, e, v);
    TranslatesOpen(schema, ov, a, b, e, v);
    RetSub(b, t);
    forall ctx, s: State | ContextOk(ctx, schema) && s.block == 0 && s.idx == 0
      ensures ReturnsFrom(ctx, schema, ov, z, e, s) {
      assert Delivers(ctx, a, b, [k], s);
      var u :| Arrives(ctx, a, b, s, u) && MetAll(ctx, [k], u);
      assert Met(ctx, [k][0], u);
      ReachesSub(ctx, b.blocks, z, s, u);
      assert Returns(z, u, TypeOf(e), Eval(ctx, schema, ov, e));
    }
  }

  /** A compiled function has one outcome: wherever a run from the entry stops, it stops at a return of the tree's
      value. */
  lemma RunMeansEval(ctx: Context, schema: seq<Type>, ov: bool, blocks: seq<Block>, e: Expr, s: State, u: State)
    requires WellTyped(e, schema) && Implements(schema, ov, blocks, e) && ContextOk(ctx, schema) && s.block == 0 &&
      s.idx == 0
    requires Reaches(ctx, blocks, s, u) && Step(ctx, blocks, u).None?
    ensures Returns(blocks, u, TypeOf(e), Eval(ctx, schema, ov, e))
  {
    assert ReturnsFrom(ctx, schema, ov, blocks, e, s);
    var t :| Reaches(ctx, blocks, s, t) && Returns(blocks, t, TypeOf(e), Eval(ctx, schema, ov, e));
    StopsOnce(ctx, blocks, s, t, u);
  }

  lemma DoneCur(e: EqualCode, g: CodeGenValue, h: CodeGenValue)
    requires e.Built(g, h) && e.D().f1.cur < |e.D().f1.blocks| && e.D().M < |e.D().f1.blocks|
    ensures e.t1.cur < |e.t1.blocks| && e.Done().cur < |e.Done().blocks|
  {
  }

  lemma TwoOperands(schema: seq<Type>, a: Fn, b: Fn, c: Fn, g: Goal, h: Goal)
    requires Computes(schema, a, b, [g]) && Computes(schema, b, c, [h])
    ensures Computes(schema, a, c, [g, h]) && c.Open() && BoundedAll([g, h], c.regs) && c.cur < |c.blocks|
  {
    ComputesTwo(schema, a, b, c, g, h);
  }

  lemma ThreeOperands(schema: seq<Type>, a: Fn, b: Fn, c: Fn, g: Goal, h: Goal, k: Goal)
    requires Computes(schema, a, b, [g, h]) && Computes(schema, b, c, [k])
    ensures Computes(schema, a, c, [g, h, k]) && c.Open() && BoundedAll([g, h, k], c.regs) && c.cur < |c.blocks|
  {
    ComputesWeaken(schema, b, c, [], [g, h], [k]);
    ComputesMore(schema, a, b, c, [g, h], [k]);
    assert [g, h] + [k] == [g, h, k];
  }

  lemma MergeBlockThere(d: Diamond)
    requires d.Built()
    ensures d.f1.cur < |d.f1.blocks| && d.M < |d.f1.blocks| && d.MergeStart().cur < |d.MergeStart().blocks|
  {
    ArmsGrow(d);
  }

  lemma OpsNone(params: seq<Type>, withNulls: bool)
    ensures OpsOf(params[..0], Values([]), withNulls) == []
  {
  }

  lemma ComputesOpen(schema: seq<Type>, a: Fn, b: Fn, gs: seq<Goal>)
    requires Computes(schema, a, b, gs)
    ensures b.Open() && b.cur < |b.blocks|
  {
  }

  lemma SlotOpen(a: Fn, a1: Fn, variant: bool)
    requires a.Open() && if variant then IsStore(a.NewSlots(1), a.slots, Const(VBool(false)), a1) else a1 == a
    ensures a1.Open()
  {
    GrownStart(a);
    if variant {
      GrownSlots(a, a, 1);
      GrownStore(a, a.NewSlots(1), a.slots, Const(VBool(false)), a1);
    }
  }

  lemma AnyBelow(schema: seq<Type>, a: Fn, x: CallCode, sig: FnSig, variant: bool, ops: seq<Operand>,
                 overflow: Option<nat>, any: Operand, gs: seq<Goal>)
    requires Computes(schema, a, x.b, gs + [Flag(any, Joined(gs, Joins(sig, variant)))]) &&
      x.Built(sig, variant, ops, overflow, any)
    ensures Below(any, x.b2.regs)
  {
    assert Bounded((gs + [Flag(any, Joined(gs, Joins(sig, variant)))])[|gs|].v, x.b.regs);
  }

  lemma ElementBounds(schema: seq<Type>, st: Fn, v: Fn, g0: Goal, g: Goal)
    requires Computes(schema, st, v, [g]) && Bounded(g0.v, st.regs)
    ensures v.Open() && BoundedAll([g0, g], v.regs)
  {
    assert Bounded([g][0].v, v.regs);
  }

  /** Visiting and comparing an element leaves pending blocks pending. */
  lemma ElementGrows(schema: seq<Type>, a: Fn, st: Fn, v: Fn, w: Fn, g0: Goal, g: Goal, q: Goal, pend: set<nat>)
    requires Grows(a, st, pend) && Computes(schema, st, v, [g]) && ComputesFrom(schema, v, w, [g0, g], [q])
    ensures Grows(a, w, pend) && w.cur < |w.blocks| && Sub(st.blocks, w.blocks)
  {
    hide Grows, Sub;
    GrowsThen(a, st, v, pend);
    GrowsThen(a, v, w, pend);
    SubTrans(st.blocks, v.blocks, w.blocks);
  }

  lemma FreshOpen(b: Fn)
    requires Fresh(b)
    ensures b.Open() && b.cur < |b.blocks|
  {
  }

  lemma ElementRegs(schema: seq<Type>, el: Element, g0: Goal, has: nat)
    requires el.Built(schema, g0, has)
    ensures el.st.regs <= el.e.regs && el.st.slots <= el.e.slots
  {
    assert Grows(el.st, el.v, {}) && Grows(el.v, el.w, {});
    assert el.w.regs <= el.x1.regs <= el.x2.regs <= el.x3.regs <= el.x4.regs <= el.e.regs;
    assert el.w.slots == el.x1.slots == el.x2.slots == el.x3.slots == el.x4.slots == el.e.slots;
  }

  lemma EndsThere(a: Fn, b: Fn, pend: set<nat>, last: nat)
    requires Grows(a, b, pend) && last in pend && Fresh(b)
    ensures last < |b.blocks| && b.cur < |b.blocks|
  {
  }

  /** The value computed and its null flag stored: the first comparison may start. */
  lemma EntryReady(schema: seq<Type>, a: Fn, p: Fn, v0: Fn, v1: Fn, g0: Goal, isNull: nat, first: nat, pend: set<nat>)
    requires Grows(a, p, pend) && Computes(schema, p, v0, [g0]) && IsStore(v0, isNull, g0.v.isNull, v1) &&
      first == |a.blocks|
    requires pend == Pending(first, first + 3, first + 3 + (|p.blocks| - first - 3)) && first + 3 < |p.blocks| &&
      p.slots == a.slots + 3 && p.regs == a.regs
    ensures v1.cur < |v1.blocks| && Bounded(g0.v, v1.regs)
    ensures var c := v1.Close(Br(first + 3)).At(first + 3);
      Grows(a, c, Pending(first, first + 4, |p.blocks|)) && Fresh(c) && Sub(v1.Close(Br(first + 3)).blocks, c.blocks) &&
        LaterThan(a, c) && c.regs == v1.regs
  {
    assert Bounded([g0][0].v, v0.regs) && v0.slots >= p.slots && v0.regs >= p.regs;
    hide Grows, Sub, Pending, Fn.Ins;
    GrowsThen(a, p, v0, pend);
    GrowsIns(a, v0, pend, [StoreI(isNull, g0.v.isNull)], 0);
    EntryJumps(a, v1, first, |p.blocks|);
  }

  /** All the pieces of an IN put together. */
  lemma InWhole(schema: seq<Type>, x: InCode, s1: Fn, s2: Fn, s3: Fn, k: Goal, entered: Fn, chained: Fn)
    requires x.a.Open() && SetupCode(x.a, s1, s2, s3) && x.p.Open() && x.p == s3.(blocks := x.p.blocks) &&
      s3.blocks <= x.p.blocks
    requires Computes(schema, x.p, x.v0, [x.g0]) && IsStore(x.v0, x.a.slots + 1, x.g0.v.isNull, x.v1) && 0 < |x.els|
    requires x.v1.cur < |x.v1.blocks| && Sub(x.v1.Close(Br(|x.a.blocks| + 3)).blocks, entered.blocks) &&
      x.p.slots == x.a.slots + 3 && x.p.regs == x.a.regs
    requires Sub(entered.blocks, chained.blocks) && ChainTo(schema, x.a, x.g0, x.els, |x.els|, chained.blocks) &&
      Sub(chained.blocks, x.done.blocks)
    requires x.EndCode() && k.t == Boolean && k.v == CodeGenValue(Reg(x.m.regs), Reg(x.m1.regs), NO_LENGTH)
    ensures InParts(schema, x, s1, s2, s3, k)
  {
    hide Sub, Fn.Close, ChainTo, InCode.EndCode, Computes;
    ChainMore(schema, x.a, x.g0, x.els, |x.els|, chained.blocks, x.done.blocks);
    SubTrans(entered.blocks, chained.blocks, x.done.blocks);
    SubTrans(x.v1.Close(Br(|x.a.blocks| + 3)).blocks, entered.blocks, x.done.blocks);
  }

  lemma ArmGrows(schema: seq<Type>, a: Fn, b: Fn, c: Fn, g: Goal, pend: set<nat>)
    requires Grows(a, b, pend) && Computes(schema, b, c, [g])
    ensures Grows(a, c, pend) && Sub(b.blocks, c.blocks) && b.regs <= c.regs && b.slots <= c.slots
  {
    GrowsThen(a, b, c, pend);
  }

  ghost predicate ElementMeans(schema: seq<Type>, ov: bool, e: Expr, el: Element)
    requires WellTyped(e, schema)
  {
    el.g.sem == Meaning(schema, ov, e) && Compilable(e)
  }

  /** These elements of an IN are the first of its list, and all have code. */
  ghost predicate ElementsMean(schema: seq<Type>, ov: bool, es: seq<Expr>, els: seq<Element>)
    requires forall i | 0 <= i < |es| :: WellTyped(es[i], schema)
  {
    |els| < |es| && forall j | 0 <= j < |els| :: ElementMeans(schema, ov, es[j + 1], els[j])
  }

  lemma NoElements(schema: seq<Type>, ov: bool, es: seq<Expr>)
    requires (forall i | 0 <= i < |es| :: WellTyped(es[i], schema)) && |es| > 0
    ensures ElementsMean(schema, ov, es, [])
  {
  }

  lemma OneMoreElement(schema: seq<Type>, ov: bool, es: seq<Expr>, els: seq<Element>, el: Element)
    requires (forall i | 0 <= i < |es| :: WellTyped(es[i], schema)) && ElementsMean(schema, ov, es, els) &&
      |els| + 1 < |es|
    requires ElementMeans(schema, ov, es[|els| + 1], el)
    ensures ElementsMean(schema, ov, es, els + [el])
  {
    hide ElementMeans, WellTyped;
    var z := els + [el];
    forall j | 0 <= j < |z| ensures ElementMeans(schema, ov, es[j + 1], z[j]) {
      if j < |els| {
        assert z[j] == els[j];
      }
    }
  }

  lemma AllElements(schema: seq<Type>, ov: bool, es: seq<Expr>, els: seq<Element>)
    requires (forall i | 0 <= i < |es| :: WellTyped(es[i], schema)) && ElementsMean(schema, ov, es, els) &&
      |els| + 1 == |es|
    ensures forall j | 0 <= j < |els| :: els[j].g.sem == Meaning(schema, ov, es[j + 1])
    ensures forall i | 1 <= i < |es| :: Compilable(es[i])
  {
    hide Meaning, WellTyped, Compilable;
    forall j | 0 <= j < |els| ensures els[j].g.sem == Meaning(schema, ov, es[j + 1]) {
      assert ElementMeans(schema, ov, es[j + 1], els[j]);
    }
    forall i | 1 <= i < |es| ensures Compilable(es[i]) {
      assert ElementMeans(schema, ov, es[i - 1 + 1], els[i - 1]);
    }
  }

  lemma IfTyped(c: Expr, t: Expr, f: Expr, schema: seq<Type>)
    requires WellTyped(If(c, t, f), schema)
    ensures WellTyped(c, schema) && WellTyped(t, schema) && WellTyped(f, schema)
    ensures TypeOf(c) == Boolean && TypeOf(t) == TypeOf(f) == TypeOf(If(c, t, f))
    ensures Compilable(If(c, t, f)) <==> Compilable(c) && Compilable(t) && Compilable(f)
  {
  }

  lemma CoalesceTyped(x: Expr, y: Expr, schema: seq<Type>)
    requires WellTyped(Coalesce(x, y), schema)
    ensures WellTyped(x, schema) && WellTyped(y, schema) && TypeOf(x) == TypeOf(y) == TypeOf(Coalesce(x, y))
    ensures Compilable(Coalesce(x, y)) <==> Compilable(x) && Compilable(y)
  {
  }

  lemma SwitchTyped(ws: seq<(Expr, Expr)>, els: Expr, schema: seq<Type>)
    requires WellTyped(Switch(ws, els), schema)
    ensures |ws| >= 1 && WellTyped(els, schema) && TypeOf(Switch(ws, els)) == TypeOf(els)
    ensures forall i | 0 <= i < |ws| :: WellTyped(ws[i].0, schema) && WellTyped(ws[i].1, schema)
    ensures forall i | 0 <= i < |ws| :: TypeOf(ws[i].0) == Boolean && TypeOf(ws[i].1) == TypeOf(els)
  {
  }

  lemma InTyped(es: seq<Expr>, schema: seq<Type>)
    requires WellTyped(In(es), schema)
    ensures |es| >= 2 && (forall i | 0 <= i < |es| ::
      WellTyped(es[i], schema) && TypeOf(es[i]) == TypeOf(es[0])) && TypeOf(In(es)) == Boolean
    ensures Compilable(In(es)) <==> (forall i | 0 <= i < |es| :: Compilable(es[i])) && InSupported(TypeOf(es[0]))
  {
  }

  lemma JumpKeeps(d: Fn, term: Term, b: nat)
    requires d.cur < |d.blocks|
    ensures d.Close(term).At(b).regs == d.regs && d.Close(term).At(b).slots == d.slots
  {
  }

  lemma DecisionGrows(a: Fn, b: Fn, c: Fn, pend: set<nat>)
    requires Grows(a, b, pend) && Grown(b, c)
    ensures Grows(a, c, pend) && Sub(b.blocks, c.blocks) && b.regs <= c.regs && b.slots <= c.slots
  {
    GrowsThen(a, b, c, pend);
  }

  /** A branch of a CASE is in place, and the insertion point is at the next condition, or at the else block. */
  ghost predicate BranchReady(schema: seq<Type>, ov: bool, a: Fn, cond: Expr, res: Expr, br: SP.Branch, i: nat, n: nat,
                              st: Fn, z: Fn)
    requires WellTyped(cond, schema) && WellTyped(res, schema) && i < n
  {
    && SP.BranchAt(schema, a, TypeOf(res), br, SP.WhenAt(a, n, i), SP.ThenAt(a, i), SP.WhenAt(a, n, i + 1), z.blocks)
    && br.g.sem == Meaning(schema, ov, cond) && br.r.sem == Meaning(schema, ov, res)
    && Fresh(z) && LaterThan(a, z) && z.cur == SP.WhenAt(a, n, i + 1) && Sub(st.blocks, z.blocks)
    && Grows(a, z, if i + 1 == n then {|a.blocks| + 1} else SP.Ahead(|a.blocks|, |a.blocks| + 5 + 2 * i, |a.blocks| +
      2 + 2 * n))
  }

  /** Both ends of a branch are in the code. */
  lemma BranchDone(a: Fn, br: SP.Branch, i: nat, n: nat, z: seq<Block>)
    requires br.d.cur < |br.d.blocks| && br.t3.cur < |br.t3.blocks| && z == br.t3.Close(Br(|a.blocks| + 1)).blocks
    requires br.ts == br.d.Close(CondBr(Reg(br.d1.regs), SP.ThenAt(a, i), SP.WhenAt(a, n, i + 1))).At(SP.ThenAt(a, i))
    requires Sub(br.ts.blocks, br.t3.blocks) && Sub(br.t3.blocks, z) && Sub(br.st.blocks, br.d.blocks) &&
      Sub(br.d.blocks, br.ts.blocks)
    ensures br.In(SP.ThenAt(a, i), SP.WhenAt(a, n, i + 1), |a.blocks| + 1, z) && Sub(br.st.blocks, z)
  {
    hide Sub;
    SubSame(z);
    SubTrans(br.ts.blocks, br.t3.blocks, z);
    SubTrans(br.d.blocks, br.ts.blocks, z);
    SubTrans(br.st.blocks, br.d.blocks, z);
  }

  lemma ElseDone(x: SP.SwitchCode, f3: Fn, m: Fn)
    requires f3.cur < |f3.blocks| && m.blocks == f3.Close(Br(x.M)).blocks && Sub(m.blocks, x.done.blocks) &&
      Sub(x.fs.blocks, f3.blocks) && Sub(f3.blocks, m.blocks)
    ensures Sub(f3.Close(Br(x.M)).blocks, x.done.blocks) && Sub(x.fs.blocks, x.done.blocks)
  {
    SubTrans(x.fs.blocks, f3.blocks, m.blocks);
    SubTrans(x.fs.blocks, m.blocks, x.done.blocks);
  }

  lemma SetupThere(a: Fn, p: Fn, pend: set<nat>)
    requires Grows(a, p, pend)
    ensures p.Open() && p.cur < |p.blocks| && a.Open()
  {
  }

  lemma SwitchWhole(schema: seq<Type>, x: SP.SwitchCode, k: Goal, entered: Fn, chained: Fn)
    requires x.a.Open() && x.p.Open() && x.p == x.a.NewSlots(3).(blocks := x.p.blocks) && x.a.blocks <= x.p.blocks &&
      0 < |x.brs|
    requires x.p.cur < |x.p.blocks| && Sub(x.p.Close(Br(|x.a.blocks| + 2)).blocks, entered.blocks)
    requires Sub(entered.blocks, chained.blocks) && SP.BranchesTo(schema, x.a, x.ty, x.brs, |x.brs|, chained.blocks) &&
      Sub(chained.blocks, x.done.blocks)
    requires x.ElseOk(schema) && x.MergeCode() && k.t == x.ty && k.v == x.Result()
    ensures SP.SwitchParts(schema, x, k)
  {
    hide Sub, Fn.Close, SP.BranchesTo, SP.SwitchCode.ElseOk, SP.SwitchCode.MergeCode;
    SP.BranchesMore(schema, x.a, x.ty, x.brs, |x.brs|, chained.blocks, x.done.blocks);
    SubTrans(entered.blocks, chained.blocks, x.done.blocks);
    SubTrans(x.p.Close(Br(|x.a.blocks| + 2)).blocks, entered.blocks, x.done.blocks);
  }

  /** The branches' meanings are those of the CASE. */
  lemma {:induction false} SwitchMeaning(schema: seq<Type>, ov: bool, ws: seq<(Expr, Expr)>, els: Expr,
                                         x: SP.SwitchCode, ctx: Context, i: nat)
    requires WellTyped(Switch(ws, els), schema) && ContextOk(ctx, schema) && |x.brs| == |ws| && i <= |ws|
    requires forall j | 0 <= j < |ws| ::
      x.brs[j].g.sem == Meaning(schema, ov, ws[j].0) && x.brs[j].r.sem == Meaning(schema, ov, ws[j].1)
    requires x.r.sem == Meaning(schema, ov, els)
    ensures SP.FirstTrue(x.brs, x.r, ctx, i) == EvalWhens(ctx, schema, ov, ws, els, Switch(ws, els), i)
    ensures i == 0 ==> Meaning(schema, ov, Switch(ws, els))(ctx) == SP.FirstTrue(x.brs, x.r, ctx, i)
    decreases |ws| - i
  {
    hide ContextOk;
    if i < |ws| {
      assert x.brs[i].g.sem(ctx) == Eval(ctx, schema, ov, ws[i].0) &&
        x.brs[i].r.sem(ctx) == Eval(ctx, schema, ov, ws[i].1);
      SwitchMeaning(schema, ov, ws, els, x, ctx, i + 1);
    }
  }

  lemma OnePhi(m: Fn, d: Fn, tb: nat, fb: nat, v: CodeGenValue, w: CodeGenValue)
    requires IsAdd(m, PhiI(m.regs, [(tb, v.data), (fb, w.data)]), d)
    ensures d == m.Ins(Phis(m.regs, tb, fb, Pairs(v, w, Parts(false, false))), 1)
  {
    NoPhis(m, tb, fb);
    PhiAppended(m, m, d, tb, fb, [], (v.data, w.data));
    assert [] + [(v.data, w.data)] == [(v.data, w.data)] == Pairs(v, w, Parts(false, false));
  }

  /** A literal needs no code. */
  lemma LiteralComputes(schema: seq<Type>, a: Fn, ty: Type, isNull: bool, data: Val, k: Goal)
    requires a.Open() && Typed(ty, data) && k.t == ty
    requires k.v == CodeGenValue(Const(data), Const(VBool(isNull)), if ty == Varchar then Const(VInt(|data.bytes|))
      else NO_LENGTH)
    requires forall ctx | ContextOk(ctx, schema) :: k.sem(ctx) == if isNull then Null else Value(data)
    ensures Computes(schema, a, a, [k])
  {
    hide Grown, ContextOk;
    GrownStart(a);
    forall ctx, s | Starts(ctx, schema, a, s) ensures Delivers(ctx, a, a, [k], s) {
      Ready(ctx, a, s);
      assert ty == Varchar ==> data.bytes[..|data.bytes|] == data.bytes;
      assert Met(ctx, k, s);
      DeliversOne(ctx, a, a, k, s, s);
    }
  }
}
