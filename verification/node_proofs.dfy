/** Nodes compiled to straight-line code: the SQL value comes out right whatever lies behind a null operand. */
module NodeProofs {
  import opened SqlValues
  import opened Expressions
  import opened BlockIR
  import opened CodeShape
  import opened Translation
  import opened Steps

  // ---------- AND, OR ----------

  /** The six instructions of AND. */
  ghost predicate AndCode(b: Fn, c1: Fn, c2: Fn, c3: Fn, c4: Fn, c5: Fn, c: Fn, g: CodeGenValue, h: CodeGenValue) {
    && IsAdd(b, AndI(b.regs, g.data, h.data), c1)
    && IsAdd(c1, AndI(c1.regs, g.isNull, h.isNull), c2)
    && IsAdd(c2, AndI(c2.regs, g.isNull, h.data), c3)
    && IsAdd(c3, AndI(c3.regs, h.isNull, g.data), c4)
    && IsAdd(c4, OrI(c4.regs, Reg(c2.regs), Reg(c3.regs)), c5)
    && IsAdd(c5, OrI(c5.regs, Reg(c1.regs), Reg(c4.regs)), c)
  }

  /** The data half is the plain conjunction; the flag is clear when either side is a definite false. */
  lemma AndComputes(schema: seq<Type>, b: Fn, c1: Fn, c2: Fn, c3: Fn, c4: Fn, c5: Fn, c: Fn, g: Goal, h: Goal, k: Goal)
    requires b.Open() && BoundedAll([g, h], b.regs) && g.t == Boolean && h.t == Boolean
    requires AndCode(b, c1, c2, c3, c4, c5, c, g.v, h.v)
    requires k.t == Boolean && k.v == CodeGenValue(Reg(b.regs), Reg(c5.regs), NO_LENGTH)
    requires forall ctx | ContextOk(ctx, schema) :: k.sem(ctx) == KleeneAnd(g.sem(ctx), h.sem(ctx))
    ensures ComputesFrom(schema, b, c, [g, h], [k])
  {
    hide Met, At, Grown, Delivers, Fn.Add, Fn.Open;
    GrownStart(b);
    GrownStep(b, b, AndI(b.regs, g.v.data, h.v.data), c1);
    GrownStep(b, c1, AndI(c1.regs, g.v.isNull, h.v.isNull), c2);
    GrownStep(b, c2, AndI(c2.regs, g.v.isNull, h.v.data), c3);
    GrownStep(b, c3, AndI(c3.regs, h.v.isNull, g.v.data), c4);
    GrownStep(b, c4, OrI(c4.regs, Reg(c2.regs), Reg(c3.regs)), c5);
    GrownStep(b, c5, OrI(c5.regs, Reg(c1.regs), Reg(c4.regs)), c);
    forall ctx, s | Starts(ctx, schema, b, s) && MetAll(ctx, [g, h], s) ensures Delivers(ctx, b, c, [k], s) {
      TwoMet(ctx, g, h, s, b.regs);
      AndRow(ctx, b, c1, c2, c3, c4, c5, c, g, h, k, s);
    }
  }

  lemma AndRow(ctx: Context, b: Fn, c1: Fn, c2: Fn, c3: Fn, c4: Fn, c5: Fn, c: Fn, g: Goal, h: Goal, k: Goal, s: State)
    requires b.Open() && b.AtEnd(s) && Bounded(g.v, b.regs) && Bounded(h.v, b.regs)
    requires AndCode(b, c1, c2, c3, c4, c5, c, g.v, h.v)
    requires Met(ctx, g, s) && Met(ctx, h, s) && g.t == Boolean && h.t == Boolean
    requires k.t == Boolean && k.v == CodeGenValue(Reg(b.regs), Reg(c5.regs), NO_LENGTH)
    requires k.sem(ctx) == KleeneAnd(g.sem(ctx), h.sem(ctx))
    ensures Delivers(ctx, b, c, [k], s)
  {
    hide At, Fn.Add, Fn.Open, Delivers, Met;
    var x, n := BoolParts(ctx, g, s);
    var y, m := BoolParts(ctx, h, s);
    Ready(ctx, b, s);
    var t := DoAnd(ctx, b, b, c1, s, s, g.v.data, h.v.data, x, y);
    t := DoAnd(ctx, b, c1, c2, s, t, g.v.isNull, h.v.isNull, n, m);
    t := DoAnd(ctx, b, c2, c3, s, t, g.v.isNull, h.v.data, n, y);
    t := DoAnd(ctx, b, c3, c4, s, t, h.v.isNull, g.v.data, m, x);
    t := DoOr(ctx, b, c4, c5, s, t, Reg(c2.regs), Reg(c3.regs), n && y, m && x);
    t := DoOr(ctx, b, c5, c, s, t, Reg(c1.regs), Reg(c4.regs), n && m, (n && y) || (m && x));
    MetBool(ctx, k, t, x && y, (n && m) || (n && y) || (m && x));
    DeliversOne(ctx, b, c, k, s, t);
  }

  ghost predicate OrCode(b: Fn, c1: Fn, c2: Fn, c3: Fn, c4: Fn, c5: Fn, c6: Fn, c7: Fn, c: Fn, g: CodeGenValue,
                         h: CodeGenValue) {
    && IsAdd(b, OrI(b.regs, g.data, h.data), c1)
    && IsAdd(c1, AndI(c1.regs, g.isNull, h.isNull), c2)
    && IsAdd(c2, NotI(c2.regs, h.data), c3)
    && IsAdd(c3, AndI(c3.regs, g.isNull, Reg(c2.regs)), c4)
    && IsAdd(c4, NotI(c4.regs, g.data), c5)
    && IsAdd(c5, AndI(c5.regs, h.isNull, Reg(c4.regs)), c6)
    && IsAdd(c6, OrI(c6.regs, Reg(c3.regs), Reg(c5.regs)), c7)
    && IsAdd(c7, OrI(c7.regs, Reg(c1.regs), Reg(c6.regs)), c)
  }

  /** The data half is the plain disjunction; the flag is clear when either side is a definite true. */
  lemma OrComputes(schema: seq<Type>, b: Fn, c1: Fn, c2: Fn, c3: Fn, c4: Fn, c5: Fn, c6: Fn, c7: Fn, c: Fn, g: Goal,
                   h: Goal, k: Goal)
    requires b.Open() && BoundedAll([g, h], b.regs) && g.t == Boolean && h.t == Boolean
    requires OrCode(b, c1, c2, c3, c4, c5, c6, c7, c, g.v, h.v)
    requires k.t == Boolean && k.v == CodeGenValue(Reg(b.regs), Reg(c7.regs), NO_LENGTH)
    requires forall ctx | ContextOk(ctx, schema) :: k.sem(ctx) == KleeneOr(g.sem(ctx), h.sem(ctx))
    ensures ComputesFrom(schema, b, c, [g, h], [k])
  {
    hide Met, At, Grown, Delivers, Fn.Add, Fn.Open;
    GrownStart(b);
    GrownStep(b, b, OrI(b.regs, g.v.data, h.v.data), c1);
    GrownStep(b, c1, AndI(c1.regs, g.v.isNull, h.v.isNull), c2);
    GrownStep(b, c2, NotI(c2.regs, h.v.data), c3);
    GrownStep(b, c3, AndI(c3.regs, g.v.isNull, Reg(c2.regs)), c4);
    GrownStep(b, c4, NotI(c4.regs, g.v.data), c5);
    GrownStep(b, c5, AndI(c5.regs, h.v.isNull, Reg(c4.regs)), c6);
    GrownStep(b, c6, OrI(c6.regs, Reg(c3.regs), Reg(c5.regs)), c7);
    GrownStep(b, c7, OrI(c7.regs, Reg(c1.regs), Reg(c6.regs)), c);
    forall ctx, s | Starts(ctx, schema, b, s) && MetAll(ctx, [g, h], s) ensures Delivers(ctx, b, c, [k], s) {
      TwoMet(ctx, g, h, s, b.regs);
      OrRow(ctx, b, c1, c2, c3, c4, c5, c6, c7, c, g, h, k, s);
    }
  }

  lemma OrRow(ctx: Context, b: Fn, c1: Fn, c2: Fn, c3: Fn, c4: Fn, c5: Fn, c6: Fn, c7: Fn, c: Fn, g: Goal, h: Goal,
              k: Goal, s: State)
    requires b.Open() && b.AtEnd(s) && Bounded(g.v, b.regs) && Bounded(h.v, b.regs)
    requires OrCode(b, c1, c2, c3, c4, c5, c6, c7, c, g.v, h.v)
    requires Met(ctx, g, s) && Met(ctx, h, s) && g.t == Boolean && h.t == Boolean
    requires k.t == Boolean && k.v == CodeGenValue(Reg(b.regs), Reg(c7.regs), NO_LENGTH)
    requires k.sem(ctx) == KleeneOr(g.sem(ctx), h.sem(ctx))
    ensures Delivers(ctx, b, c, [k], s)
  {
    hide At, Fn.Add, Fn.Open, Delivers, Met, IsAdd, Exec;
    var x, n := BoolParts(ctx, g, s);
    var y, m := BoolParts(ctx, h, s);
    Ready(ctx, b, s);
    var t := DoOr(ctx, b, b, c1, s, s, g.v.data, h.v.data, x, y);
    t := DoAnd(ctx, b, c1, c2, s, t, g.v.isNull, h.v.isNull, n, m);
    t := DoNot(ctx, b, c2, c3, s, t, h.v.data, y);
    t := DoAnd(ctx, b, c3, c4, s, t, g.v.isNull, Reg(c2.regs), n, !y);
    t := DoNot(ctx, b, c4, c5, s, t, g.v.data, x);
    t := DoAnd(ctx, b, c5, c6, s, t, h.v.isNull, Reg(c4.regs), m, !x);
    t := DoOr(ctx, b, c6, c7, s, t, Reg(c3.regs), Reg(c5.regs), n && !y, m && !x);
    t := DoOr(ctx, b, c7, c, s, t, Reg(c1.regs), Reg(c6.regs), n && m, (n && !y) || (m && !x));
    MetBool(ctx, k, t, x || y, (n && m) || (n && !y) || (m && !x));
    DeliversOne(ctx, b, c, k, s, t);
  }

  // ---------- NOT, IS NULL ----------

  /** NOT flips the data half and keeps the flag. */
  lemma NotComputes(schema: seq<Type>, b: Fn, c: Fn, g: Goal, k: Goal)
    requires b.Open() && BoundedAll([g], b.regs) && g.t == Boolean
    requires IsAdd(b, NotI(b.regs, g.v.data), c)
    requires k.t == Boolean && k.v == CodeGenValue(Reg(b.regs), g.v.isNull, NO_LENGTH)
    requires forall ctx | ContextOk(ctx, schema) :: k.sem(ctx) == KleeneNot(g.sem(ctx))
    ensures ComputesFrom(schema, b, c, [g], [k])
  {
    hide Met, At, Grown, Delivers, Fn.Add, Fn.Open;
    GrownStart(b);
    GrownStep(b, b, NotI(b.regs, g.v.data), c);
    assert Bounded([g][0].v, b.regs);
    forall ctx, s | Starts(ctx, schema, b, s) && MetAll(ctx, [g], s) ensures Delivers(ctx, b, c, [k], s) {
      OneMet(ctx, g, s, b.regs);
      var x, n := BoolParts(ctx, g, s);
      Ready(ctx, b, s);
      var t := DoNot(ctx, b, b, c, s, s, g.v.data, x);
      MetBool(ctx, k, t, !x, n);
      DeliversOne(ctx, b, c, k, s, t);
    }
  }

  /** IS NULL compares the flag with true and is never null itself. */
  lemma IsNullComputes(schema: seq<Type>, b: Fn, c: Fn, g: Goal, k: Goal)
    requires b.Open() && BoundedAll([g], b.regs)
    requires IsAdd(b, CmpI(b.regs, EQ, g.v.isNull, Const(VBool(true))), c)
    requires k.t == Boolean && k.v == CodeGenValue(Reg(b.regs), Const(VBool(false)), NO_LENGTH)
    requires forall ctx | ContextOk(ctx, schema) :: k.sem(ctx) == Value(VBool(g.sem(ctx).Null?))
    ensures ComputesFrom(schema, b, c, [g], [k])
  {
    hide Met, At, Grown, Delivers, Fn.Add, Fn.Open;
    GrownStart(b);
    var i := CmpI(b.regs, EQ, g.v.isNull, Const(VBool(true)));
    GrownStep(b, b, i, c);
    forall ctx, s | Starts(ctx, schema, b, s) && MetAll(ctx, [g], s) ensures Delivers(ctx, b, c, [k], s) {
      OneMet(ctx, g, s, b.regs);
      var n := NullPart(ctx, g, s);
      Ready(ctx, b, s);
      var t := Do(ctx, b, b, c, s, s, i, VBool(n));
      MetBool(ctx, k, t, n, false);
      DeliversOne(ctx, b, c, k, s, t);
    }
  }

  // ---------- comparisons ----------

  /** A comparison of integers, with the stack flag every integer operator gets. */
  ghost predicate CompareCode(b: Fn, c1: Fn, c2: Fn, c3: Fn, c4: Fn, c5: Fn, c6: Fn, c7: Fn, c: Fn, op: CmpOp,
                              g: CodeGenValue, h: CodeGenValue) {
    && IsStore(b.NewSlots(1), b.slots, Const(VBool(false)), c1)
    && IsAdd(c1, OrI(c1.regs, g.isNull, h.isNull), c2)
    && IsAdd(c2, NotI(c2.regs, Reg(c1.regs)), c3)
    && IsAdd(c3, CallCompareI(c3.regs, op, g.data, h.data), c4)
    && IsAdd(c4, AndI(c4.regs, Reg(c2.regs), Reg(c3.regs)), c5)
    && IsAdd(c5, OrI(c5.regs, g.isNull, h.isNull), c6)
    && IsAdd(c6, LoadI(c6.regs, b.slots), c7)
    && IsAdd(c7, OrI(c7.regs, Reg(c5.regs), Reg(c6.regs)), c)
  }

  lemma CompareComputes(schema: seq<Type>, b: Fn, c1: Fn, c2: Fn, c3: Fn, c4: Fn, c5: Fn, c6: Fn, c7: Fn, c: Fn,
                        op: CmpOp, g: Goal, h: Goal, k: Goal)
    requires b.Open() && BoundedAll([g, h], b.regs) && IsInteger(g.t) && IsInteger(h.t)
    requires CompareCode(b, c1, c2, c3, c4, c5, c6, c7, c, op, g.v, h.v)
    requires k.t == Boolean && k.v == CodeGenValue(Reg(c4.regs), Reg(c7.regs), NO_LENGTH)
    requires forall ctx | ContextOk(ctx, schema) :: k.sem(ctx) == CompareSql(ctx.kernels, op, g.sem(ctx), h.sem(ctx))
    ensures ComputesFrom(schema, b, c, [g, h], [k])
  {
    hide Met, At, Grown, Delivers, Fn.Add, Fn.Ins, Fn.Open;
    GrownStart(b);
    GrownSlots(b, b, 1);
    GrownStore(b, b.NewSlots(1), b.slots, Const(VBool(false)), c1);
    GrownStep(b, c1, OrI(c1.regs, g.v.isNull, h.v.isNull), c2);
    GrownStep(b, c2, NotI(c2.regs, Reg(c1.regs)), c3);
    GrownStep(b, c3, CallCompareI(c3.regs, op, g.v.data, h.v.data), c4);
    GrownStep(b, c4, AndI(c4.regs, Reg(c2.regs), Reg(c3.regs)), c5);
    GrownStep(b, c5, OrI(c5.regs, g.v.isNull, h.v.isNull), c6);
    GrownStep(b, c6, LoadI(c6.regs, b.slots), c7);
    GrownStep(b, c7, OrI(c7.regs, Reg(c5.regs), Reg(c6.regs)), c);
    forall ctx, s | Starts(ctx, schema, b, s) && MetAll(ctx, [g, h], s) ensures Delivers(ctx, b, c, [k], s) {
      TwoMet(ctx, g, h, s, b.regs);
      CompareRow(ctx, b, c1, c2, c3, c4, c5, c6, c7, c, op, g, h, k, s);
    }
  }

  lemma CompareRow(ctx: Context, b: Fn, c1: Fn, c2: Fn, c3: Fn, c4: Fn, c5: Fn, c6: Fn, c7: Fn, c: Fn, op: CmpOp,
                   g: Goal, h: Goal, k: Goal, s: State)
    requires b.Open() && b.AtEnd(s) && Bounded(g.v, b.regs) && Bounded(h.v, b.regs)
    requires CompareCode(b, c1, c2, c3, c4, c5, c6, c7, c, op, g.v, h.v)
    requires Met(ctx, g, s) && Met(ctx, h, s) && IsInteger(g.t) && IsInteger(h.t)
    requires k.t == Boolean && k.v == CodeGenValue(Reg(c4.regs), Reg(c7.regs), NO_LENGTH)
    requires k.sem(ctx) == CompareSql(ctx.kernels, op, g.sem(ctx), h.sem(ctx))
    ensures Delivers(ctx, b, c, [k], s)
  {
    hide At, Fn.Add, Fn.Ins, Fn.Open, Delivers, Met, CompareInt, IsAdd, Exec;
    var x, n := IntParts(ctx, g, s);
    var y, m := IntParts(ctx, h, s);
    Ready(ctx, b, s);
    AtSlots(ctx, b, b, s, s, 1);
    var t := DoStore(ctx, b, b.NewSlots(1), c1, s, s, b.slots, Const(VBool(false)), VBool(false));
    t := DoOr(ctx, b, c1, c2, s, t, g.v.isNull, h.v.isNull, n, m);
    t := DoNot(ctx, b, c2, c3, s, t, Reg(c1.regs), n || m);
    t := DoCallCompare(ctx, b, c3, c4, s, t, op, g.v.data, h.v.data, x, y);
    t := DoAnd(ctx, b, c4, c5, s, t, Reg(c2.regs), Reg(c3.regs), !(n || m), CompareInt(op, x, y));
    t := DoOr(ctx, b, c5, c6, s, t, g.v.isNull, h.v.isNull, n, m);
    t := DoLoad(ctx, b, c6, c7, s, t, b.slots, VBool(false));
    t := DoOr(ctx, b, c7, c, s, t, Reg(c5.regs), Reg(c6.regs), n || m, false);
    MetBool(ctx, k, t, !(n || m) && CompareInt(op, x, y), n || m);
    DeliversOne(ctx, b, c, k, s, t);
  }

  /** An ordering comparison of strings. */
  ghost predicate StrOrderCode(b: Fn, c1: Fn, c2: Fn, c3: Fn, c4: Fn, c5: Fn, c: Fn, op: CmpOp, g: CodeGenValue,
                               h: CodeGenValue) {
    && IsAdd(b, OrI(b.regs, g.isNull, h.isNull), c1)
    && IsAdd(c1, NotI(c1.regs, Reg(b.regs)), c2)
    && IsAdd(c2, CallStrCompareI(c2.regs, g.data, g.length, h.data, h.length), c3)
    && IsAdd(c3, CmpI(c3.regs, op, Reg(c2.regs), Const(VInt(0))), c4)
    && IsAdd(c4, AndI(c4.regs, Reg(c1.regs), Reg(c3.regs)), c5)
    && IsAdd(c5, OrI(c5.regs, g.isNull, h.isNull), c)
  }

  lemma StrOrderComputes(schema: seq<Type>, b: Fn, c1: Fn, c2: Fn, c3: Fn, c4: Fn, c5: Fn, c: Fn, op: CmpOp, g: Goal,
                         h: Goal, k: Goal)
    requires b.Open() && BoundedAll([g, h], b.regs) && g.t == Varchar && h.t == Varchar && op != EQ && op != NEQ
    requires StrOrderCode(b, c1, c2, c3, c4, c5, c, op, g.v, h.v)
    requires k.t == Boolean && k.v == CodeGenValue(Reg(c4.regs), Reg(c5.regs), NO_LENGTH)
    requires forall ctx | ContextOk(ctx, schema) :: k.sem(ctx) == CompareSql(ctx.kernels, op, g.sem(ctx), h.sem(ctx))
    ensures ComputesFrom(schema, b, c, [g, h], [k])
  {
    hide Met, At, Grown, Delivers, Fn.Add, Fn.Ins, Fn.Open;
    GrownStart(b);
    GrownStep(b, b, OrI(b.regs, g.v.isNull, h.v.isNull), c1);
    GrownStep(b, c1, NotI(c1.regs, Reg(b.regs)), c2);
    GrownStep(b, c2, CallStrCompareI(c2.regs, g.v.data, g.v.length, h.v.data, h.v.length), c3);
    GrownStep(b, c3, CmpI(c3.regs, op, Reg(c2.regs), Const(VInt(0))), c4);
    GrownStep(b, c4, AndI(c4.regs, Reg(c1.regs), Reg(c3.regs)), c5);
    GrownStep(b, c5, OrI(c5.regs, g.v.isNull, h.v.isNull), c);
    forall ctx, s | Starts(ctx, schema, b, s) && MetAll(ctx, [g, h], s) ensures Delivers(ctx, b, c, [k], s) {
      TwoMet(ctx, g, h, s, b.regs);
      StrOrderRow(ctx, b, c1, c2, c3, c4, c5, c, op, g, h, k, s);
    }
  }

  lemma StrOrderRow(ctx: Context, b: Fn, c1: Fn, c2: Fn, c3: Fn, c4: Fn, c5: Fn, c: Fn, op: CmpOp, g: Goal, h: Goal,
                    k: Goal, s: State)
    requires b.Open() && b.AtEnd(s) && Bounded(g.v, b.regs) && Bounded(h.v, b.regs)
    requires StrOrderCode(b, c1, c2, c3, c4, c5, c, op, g.v, h.v)
    requires Met(ctx, g, s) && Met(ctx, h, s) && g.t == Varchar && h.t == Varchar && op != EQ && op != NEQ
    requires k.t == Boolean && k.v == CodeGenValue(Reg(c4.regs), Reg(c5.regs), NO_LENGTH)
    requires k.sem(ctx) == CompareSql(ctx.kernels, op, g.sem(ctx), h.sem(ctx))
    ensures Delivers(ctx, b, c, [k], s)
  {
    hide At, Fn.Add, Fn.Ins, Fn.Open, Delivers, Met, CompareInt, Content, IsAdd, Exec;
    var p, l, n := StrParts(ctx, g, s);
    var q, l', m := StrParts(ctx, h, s);
    var z := ctx.kernels.order(Content(VPtr(p), VInt(l)), Content(VPtr(q), VInt(l')));
    Ready(ctx, b, s);
    var t := DoOr(ctx, b, b, c1, s, s, g.v.isNull, h.v.isNull, n, m);
    t := DoNot(ctx, b, c1, c2, s, t, Reg(b.regs), n || m);
    t := DoStrCompare(ctx, b, c2, c3, s, t, g.v, h.v, p, l, q, l');
    t := DoCmp(ctx, b, c3, c4, s, t, op, Reg(c2.regs), Const(VInt(0)), z, 0);
    t := DoAnd(ctx, b, c4, c5, s, t, Reg(c1.regs), Reg(c3.regs), !(n || m), CompareInt(op, z, 0));
    t := DoOr(ctx, b, c5, c, s, t, g.v.isNull, h.v.isNull, n, m);
    MetBool(ctx, k, t, !(n || m) && CompareInt(op, z, 0), n || m);
    DeliversOne(ctx, b, c, k, s, t);
  }

  // ---------- BETWEEN ----------

  lemma ThreeMet(ctx: Context, g: Goal, lo: Goal, hi: Goal, s: State, n: nat)
    requires MetAll(ctx, [g, lo, hi], s) && BoundedAll([g, lo, hi], n)
    ensures Met(ctx, g, s) && Met(ctx, lo, s) && Met(ctx, hi, s)
    ensures Bounded(g.v, n) && Bounded(lo.v, n) && Bounded(hi.v, n)
  {
    assert [g, lo, hi][0] == g && [g, lo, hi][1] == lo && [g, lo, hi][2] == hi;
  }

  /** Three null flags joined, and the join negated. */
  ghost predicate AnyNullCode(b: Fn, c1: Fn, c2: Fn, c3: Fn, g: CodeGenValue, lo: CodeGenValue, hi: CodeGenValue) {
    && IsAdd(b, OrI(b.regs, g.isNull, lo.isNull), c1)
    && IsAdd(c1, OrI(c1.regs, Reg(b.regs), hi.isNull), c2)
    && IsAdd(c2, NotI(c2.regs, Reg(c1.regs)), c3)
  }

  lemma DoAnyNull(ctx: Context, b: Fn, c1: Fn, c2: Fn, c3: Fn, s: State, g: CodeGenValue, lo: CodeGenValue,
                  hi: CodeGenValue, n: bool, m: bool, o: bool)
    returns (u: State)
    requires At(ctx, b, b, s, s) && AnyNullCode(b, c1, c2, c3, g, lo, hi) && Below(hi.isNull, b.regs)
    requires Ev(s, g.isNull) == Some(VBool(n)) && Ev(s, lo.isNull) == Some(VBool(m)) &&
      Ev(s, hi.isNull) == Some(VBool(o))
    ensures At(ctx, b, c3, s, u) && Keeps(b.regs, s, u) && c1.regs == b.regs + 1 && c2.regs == b.regs + 2 &&
      c3.regs == b.regs + 3
    ensures Ev(u, Reg(c1.regs)) == Some(VBool(n || m || o)) && Ev(u, Reg(c2.regs)) == Some(VBool(!(n || m || o)))
  {
    hide At, Fn.Add;
    u := DoOr(ctx, b, b, c1, s, s, g.isNull, lo.isNull, n, m);
    u := DoOr(ctx, b, c1, c2, s, u, Reg(b.regs), hi.isNull, n || m, o);
    u := DoNot(ctx, b, c2, c3, s, u, Reg(c1.regs), n || m || o);
  }

  ghost predicate BetweenIntCode(b: Fn, c1: Fn, c2: Fn, c3: Fn, c4: Fn, c5: Fn, c6: Fn, c: Fn, g: CodeGenValue,
                                 lo: CodeGenValue, hi: CodeGenValue) {
    && AnyNullCode(b, c1, c2, c3, g, lo, hi)
    && IsAdd(c3, CmpI(c3.regs, LTE, lo.data, g.data), c4)
    && IsAdd(c4, CmpI(c4.regs, LTE, g.data, hi.data), c5)
    && IsAdd(c5, AndI(c5.regs, Reg(c2.regs), Reg(c3.regs)), c6)
    && IsAdd(c6, AndI(c6.regs, Reg(c5.regs), Reg(c4.regs)), c)
  }

  lemma BetweenIntComputes(schema: seq<Type>, b: Fn, c1: Fn, c2: Fn, c3: Fn, c4: Fn, c5: Fn, c6: Fn, c: Fn, g: Goal,
                           lo: Goal, hi: Goal, k: Goal)
    requires b.Open() && BoundedAll([g, lo, hi], b.regs) && IsInteger(g.t) && IsInteger(lo.t) && IsInteger(hi.t)
    requires BetweenIntCode(b, c1, c2, c3, c4, c5, c6, c, g.v, lo.v, hi.v)
    requires k.t == Boolean && k.v == CodeGenValue(Reg(c6.regs), Reg(c1.regs), NO_LENGTH)
    requires forall ctx | ContextOk(ctx, schema) ::
      k.sem(ctx) == BetweenSql(ctx.kernels, g.sem(ctx), lo.sem(ctx), hi.sem(ctx))
    ensures ComputesFrom(schema, b, c, [g, lo, hi], [k])
  {
    hide Met, At, Grown, Delivers, Fn.Add, Fn.Ins, Fn.Open;
    GrownStart(b);
    GrownStep(b, b, OrI(b.regs, g.v.isNull, lo.v.isNull), c1);
    GrownStep(b, c1, OrI(c1.regs, Reg(b.regs), hi.v.isNull), c2);
    GrownStep(b, c2, NotI(c2.regs, Reg(c1.regs)), c3);
    GrownStep(b, c3, CmpI(c3.regs, LTE, lo.v.data, g.v.data), c4);
    GrownStep(b, c4, CmpI(c4.regs, LTE, g.v.data, hi.v.data), c5);
    GrownStep(b, c5, AndI(c5.regs, Reg(c2.regs), Reg(c3.regs)), c6);
    GrownStep(b, c6, AndI(c6.regs, Reg(c5.regs), Reg(c4.regs)), c);
    forall ctx, s | Starts(ctx, schema, b, s) && MetAll(ctx, [g, lo, hi], s) ensures Delivers(ctx, b, c, [k], s) {
      ThreeMet(ctx, g, lo, hi, s, b.regs);
      BetweenIntRow(ctx, b, c1, c2, c3, c4, c5, c6, c, g, lo, hi, k, s);
    }
  }

  lemma BetweenIntRow(ctx: Context, b: Fn, c1: Fn, c2: Fn, c3: Fn, c4: Fn, c5: Fn, c6: Fn, c: Fn, g: Goal, lo: Goal,
                      hi: Goal, k: Goal, s: State)
    requires b.Open() && b.AtEnd(s) && Bounded(g.v, b.regs) && Bounded(lo.v, b.regs) && Bounded(hi.v, b.regs)
    requires BetweenIntCode(b, c1, c2, c3, c4, c5, c6, c, g.v, lo.v, hi.v)
    requires Met(ctx, g, s) && Met(ctx, lo, s) && Met(ctx, hi, s) && IsInteger(g.t) && IsInteger(lo.t) &&
      IsInteger(hi.t)
    requires k.t == Boolean && k.v == CodeGenValue(Reg(c6.regs), Reg(c1.regs), NO_LENGTH)
    requires k.sem(ctx) == BetweenSql(ctx.kernels, g.sem(ctx), lo.sem(ctx), hi.sem(ctx))
    ensures Delivers(ctx, b, c, [k], s)
  {
    hide At, Fn.Add, Fn.Ins, Fn.Open, Delivers, Met, CompareInt, IsAdd, Exec;
    var x, n := IntParts(ctx, g, s);
    var y, m := IntParts(ctx, lo, s);
    var z, o := IntParts(ctx, hi, s);
    var left, right := CompareInt(LTE, y, x), CompareInt(LTE, x, z);
    Ready(ctx, b, s);
    var t := DoAnyNull(ctx, b, c1, c2, c3, s, g.v, lo.v, hi.v, n, m, o);
    t := DoCmp(ctx, b, c3, c4, s, t, LTE, lo.v.data, g.v.data, y, x);
    t := DoCmp(ctx, b, c4, c5, s, t, LTE, g.v.data, hi.v.data, x, z);
    t := DoAnd(ctx, b, c5, c6, s, t, Reg(c2.regs), Reg(c3.regs), !(n || m || o), left);
    t := DoAnd(ctx, b, c6, c, s, t, Reg(c5.regs), Reg(c4.regs), !(n || m || o) && left, right);
    MetBool(ctx, k, t, !(n || m || o) && left && right, n || m || o);
    DeliversOne(ctx, b, c, k, s, t);
  }

  lemma DoStrLte(ctx: Context, a: Fn, c: Fn, d: Fn, e: Fn, s: State, t: State, g: CodeGenValue, h: CodeGenValue,
                 p: string, l: int, q: string, m: int)
    returns (u: State)
    requires At(ctx, a, c, s, t)
    requires IsAdd(c, CallStrCompareI(c.regs, g.data, g.length, h.data, h.length), d) &&
      IsAdd(d, CmpI(d.regs, LTE, Reg(c.regs), Const(VInt(0))), e)
    requires Ev(t, g.data) == Some(VPtr(p)) && Ev(t, g.length) == Some(VInt(l)) && Ev(t, h.data) == Some(VPtr(q)) &&
      Ev(t, h.length) == Some(VInt(m))
    ensures At(ctx, a, e, s, u) && Keeps(c.regs, t, u) && d.regs == c.regs + 1 && e.regs == c.regs + 2
    ensures Ev(u, Reg(d.regs)) == Some(VBool(CompareInt(LTE,
      ctx.kernels.order(Content(VPtr(p), VInt(l)), Content(VPtr(q), VInt(m))), 0)))
  {
    hide At, Fn.Add, CompareInt, Content;
    var z := ctx.kernels.order(Content(VPtr(p), VInt(l)), Content(VPtr(q), VInt(m)));
    u := DoStrCompare(ctx, a, c, d, s, t, g, h, p, l, q, m);
    u := DoCmp(ctx, a, d, e, s, u, LTE, Reg(c.regs), Const(VInt(0)), z, 0);
  }

  ghost predicate BetweenStrCode(b: Fn, c1: Fn, c2: Fn, c3: Fn, c4: Fn, c5: Fn, c6: Fn, c7: Fn, c8: Fn, c: Fn,
                                 g: CodeGenValue, lo: CodeGenValue, hi: CodeGenValue) {
    && AnyNullCode(b, c1, c2, c3, g, lo, hi)
    && IsAdd(c3, CallStrCompareI(c3.regs, lo.data, lo.length, g.data, g.length), c4)
    && IsAdd(c4, CmpI(c4.regs, LTE, Reg(c3.regs), Const(VInt(0))), c5)
    && IsAdd(c5, CallStrCompareI(c5.regs, g.data, g.length, hi.data, hi.length), c6)
    && IsAdd(c6, CmpI(c6.regs, LTE, Reg(c5.regs), Const(VInt(0))), c7)
    && IsAdd(c7, AndI(c7.regs, Reg(c2.regs), Reg(c4.regs)), c8)
    && IsAdd(c8, AndI(c8.regs, Reg(c7.regs), Reg(c6.regs)), c)
  }

  lemma BetweenStrComputes(schema: seq<Type>, b: Fn, c1: Fn, c2: Fn, c3: Fn, c4: Fn, c5: Fn, c6: Fn, c7: Fn, c8: Fn,
                           c: Fn, g: Goal, lo: Goal, hi: Goal, k: Goal)
    requires b.Open() && BoundedAll([g, lo, hi], b.regs) && g.t == Varchar && lo.t == Varchar && hi.t == Varchar
    requires BetweenStrCode(b, c1, c2, c3, c4, c5, c6, c7, c8, c, g.v, lo.v, hi.v)
    requires k.t == Boolean && k.v == CodeGenValue(Reg(c8.regs), Reg(c1.regs), NO_LENGTH)
    requires forall ctx | ContextOk(ctx, schema) ::
      k.sem(ctx) == BetweenSql(ctx.kernels, g.sem(ctx), lo.sem(ctx), hi.sem(ctx))
    ensures ComputesFrom(schema, b, c, [g, lo, hi], [k])
  {
    hide Met, At, Grown, Delivers, Fn.Add, Fn.Ins, Fn.Open;
    GrownStart(b);
    GrownStep(b, b, OrI(b.regs, g.v.isNull, lo.v.isNull), c1);
    GrownStep(b, c1, OrI(c1.regs, Reg(b.regs), hi.v.isNull), c2);
    GrownStep(b, c2, NotI(c2.regs, Reg(c1.regs)), c3);
    GrownStep(b, c3, CallStrCompareI(c3.regs, lo.v.data, lo.v.length, g.v.data, g.v.length), c4);
    GrownStep(b, c4, CmpI(c4.regs, LTE, Reg(c3.regs), Const(VInt(0))), c5);
    GrownStep(b, c5, CallStrCompareI(c5.regs, g.v.data, g.v.length, hi.v.data, hi.v.length), c6);
    GrownStep(b, c6, CmpI(c6.regs, LTE, Reg(c5.regs), Const(VInt(0))), c7);
    GrownStep(b, c7, AndI(c7.regs, Reg(c2.regs), Reg(c4.regs)), c8);
    GrownStep(b, c8, AndI(c8.regs, Reg(c7.regs), Reg(c6.regs)), c);
    forall ctx, s | Starts(ctx, schema, b, s) && MetAll(ctx, [g, lo, hi], s) ensures Delivers(ctx, b, c, [k], s) {
      ThreeMet(ctx, g, lo, hi, s, b.regs);
      BetweenStrRow(ctx, b, c1, c2, c3, c4, c5, c6, c7, c8, c, g, lo, hi, k, s);
    }
  }

  /** Both comparisons, beside the joined null flags. */
  lemma BetweenStrTests(ctx: Context, b: Fn, c1: Fn, c2: Fn, c3: Fn, c4: Fn, c5: Fn, c6: Fn, c7: Fn, c8: Fn, c: Fn,
                        s: State,
                        g: CodeGenValue, lo: CodeGenValue, hi: CodeGenValue,
                        p: string, l: int, n: bool, q: string, lq: int, m: bool, r: string, lr: int, o: bool)
                          returns (t: State)
    requires At(ctx, b, b, s, s) && Bounded(g, b.regs) && Bounded(lo, b.regs) && Bounded(hi, b.regs)
    requires BetweenStrCode(b, c1, c2, c3, c4, c5, c6, c7, c8, c, g, lo, hi)
    requires Ev(s, g.data) == Some(VPtr(p)) && Ev(s, g.length) == Some(VInt(l)) && Ev(s, g.isNull) == Some(VBool(n))
    requires Ev(s, lo.data) == Some(VPtr(q)) && Ev(s, lo.length) == Some(VInt(lq)) && Ev(s, lo.isNull) == Some(VBool(m))
    requires Ev(s, hi.data) == Some(VPtr(r)) && Ev(s, hi.length) == Some(VInt(lr)) && Ev(s, hi.isNull) == Some(VBool(o))
    ensures c1.regs < c2.regs < c4.regs < c6.regs < c7.regs && At(ctx, b, c7, s, t)
    ensures Ev(t, Reg(c1.regs)) == Some(VBool(n || m || o)) && Ev(t, Reg(c2.regs)) == Some(VBool(!(n || m || o)))
    ensures Ev(t, Reg(c4.regs)) == Some(VBool(CompareInt(LTE,
      ctx.kernels.order(Content(VPtr(q), VInt(lq)), Content(VPtr(p), VInt(l))), 0)))
    ensures Ev(t, Reg(c6.regs)) == Some(VBool(CompareInt(LTE,
      ctx.kernels.order(Content(VPtr(p), VInt(l)), Content(VPtr(r), VInt(lr))), 0)))
  {
    hide At, Fn.Add, Fn.Ins, Fn.Open, CompareInt, Content, IsAdd, Exec;
    t := DoAnyNull(ctx, b, c1, c2, c3, s, g, lo, hi, n, m, o);
    t := DoStrLte(ctx, b, c3, c4, c5, s, t, lo, g, q, lq, p, l);
    t := DoStrLte(ctx, b, c5, c6, c7, s, t, g, hi, p, l, r, lr);
  }

  lemma BetweenStrRow(ctx: Context, b: Fn, c1: Fn, c2: Fn, c3: Fn, c4: Fn, c5: Fn, c6: Fn, c7: Fn, c8: Fn, c: Fn,
                      g: Goal, lo: Goal, hi: Goal, k: Goal, s: State)
    requires b.Open() && b.AtEnd(s) && Bounded(g.v, b.regs) && Bounded(lo.v, b.regs) && Bounded(hi.v, b.regs)
    requires BetweenStrCode(b, c1, c2, c3, c4, c5, c6, c7, c8, c, g.v, lo.v, hi.v)
    requires Met(ctx, g, s) && Met(ctx, lo, s) && Met(ctx, hi, s) && g.t == Varchar && lo.t == Varchar &&
      hi.t == Varchar
    requires k.t == Boolean && k.v == CodeGenValue(Reg(c8.regs), Reg(c1.regs), NO_LENGTH)
    requires k.sem(ctx) == BetweenSql(ctx.kernels, g.sem(ctx), lo.sem(ctx), hi.sem(ctx))
    ensures Delivers(ctx, b, c, [k], s)
  {
    hide At, Fn.Add, Fn.Ins, Fn.Open, Delivers, Met, CompareInt, Content, IsAdd, Exec;
    var p, l, n := StrParts(ctx, g, s);
    var q, lq, m := StrParts(ctx, lo, s);
    var r, lr, o := StrParts(ctx, hi, s);
    var y := ctx.kernels.order(Content(VPtr(q), VInt(lq)), Content(VPtr(p), VInt(l)));
    var z := ctx.kernels.order(Content(VPtr(p), VInt(l)), Content(VPtr(r), VInt(lr)));
    var left, right := CompareInt(LTE, y, 0), CompareInt(LTE, z, 0);
    Ready(ctx, b, s);
    var t := BetweenStrTests(ctx, b, c1, c2, c3, c4, c5, c6, c7, c8, c, s, g.v, lo.v, hi.v, p, l, n, q, lq, m, r, lr,
      o);
    t := DoAnd(ctx, b, c7, c8, s, t, Reg(c2.regs), Reg(c4.regs), !(n || m || o), left);
    t := DoAnd(ctx, b, c8, c, s, t, Reg(c7.regs), Reg(c6.regs), !(n || m || o) && left, right);
    MetBool(ctx, k, t, !(n || m || o) && left && right, n || m || o);
    DeliversOne(ctx, b, c, k, s, t);
  }
}
