/** String equality: a length test, and a kernel that is called on strings of one length only. */
module StringEqualProofs {
  import opened SqlValues
  import opened Expressions
  import opened BlockIR
  import opened CodeShape
  import opened Translation
  import opened Steps
  import opened BranchProofs

  /** Both strings are there and equal. */
  predicate StrSame(a: Sql, b: Sql) {
    a.Value? && b.Value? && a.v.VPtr? && a.v == b.v
  }

  lemma SameMeansSameLength(a: Sql, b: Sql)
    ensures StrSame(a, b) ==> SameLength(a, b)
  {
  }

  predicate SameLength(a: Sql, b: Sql) {
    a.Value? && b.Value? && a.v.VPtr? && b.v.VPtr? && |a.v.bytes| == |b.v.bytes|
  }

  /** A flag that is never null. */
  ghost function Flag(o: Operand, p: Context -> bool): Goal {
    Goal(Boolean, CodeGenValue(o, Const(VBool(false)), NO_LENGTH), ctx => Value(VBool(p(ctx))))
  }

  ghost function EitherNull(g: Goal, h: Goal): Context -> bool {
    ctx => g.sem(ctx).Null? || h.sem(ctx).Null?
  }

  ghost function LengthsMatch(g: Goal, h: Goal): Context -> bool {
    ctx => SameLength(g.sem(ctx), h.sem(ctx))
  }

  ghost function Equal(g: Goal, h: Goal): Context -> bool {
    ctx => StrSame(g.sem(ctx), h.sem(ctx))
  }

  lemma FlagMet(ctx: Context, o: Operand, p: Context -> bool, s: State)
    ensures Met(ctx, Flag(o, p), s) <==> Ev(s, o) == Some(VBool(p(ctx)))
  {
  }

  /** The snapshots: null flag, length test, and the diamond around the call. */
  datatype EqualCode = EqualCode(b: Fn, c1: Fn, c2: Fn, c3: Fn, c4: Fn, t1: Fn) {
    function D(): Diamond
      requires t1.cur < |t1.blocks|
    {
      Diamond(c4, Reg(c3.regs), c4.NewBlock().NewBlock().NewBlock(), t1,
        t1.Close(Br(|c4.blocks| + 2)).At(|c4.blocks| + 1))
    }

    /** The phi of the merge block, and the function at that point. */
    function Same(): Operand
      requires t1.cur < |t1.blocks|
    {
      Reg(D().f1.regs)
    }

    function Done(): Fn
      requires t1.cur < |t1.blocks| && D().f1.cur < |D().f1.blocks| && D().M < |D().f1.blocks|
    {
      D().Done(CodeGenValue(Reg(c4.regs), Const(VBool(false)), NO_LENGTH),
        CodeGenValue(Reg(c3.regs), Const(VBool(false)), NO_LENGTH), Parts(false, false))
    }

    ghost predicate TestCode(g: CodeGenValue, h: CodeGenValue) {
      && IsAdd(b, OrI(b.regs, g.isNull, h.isNull), c1)
      && IsAdd(c1, CmpI(c1.regs, EQ, g.length, h.length), c2)
      && IsAdd(c2, NotI(c2.regs, Reg(b.regs)), c3)
      && IsAdd(c3, AndI(c3.regs, Reg(c1.regs), Reg(c2.regs)), c4)
    }

    ghost predicate Built(g: CodeGenValue, h: CodeGenValue) {
      && TestCode(g, h)
      && t1.cur < |t1.blocks| && D().c.cur < |D().c.blocks|
      && IsAdd(D().TrueStart(), CallStrEqualI(c4.regs, g.data, g.length, h.data, h.length), t1)
    }
  }

  lemma TestComputes(schema: seq<Type>, e: EqualCode, g: Goal, h: Goal)
    requires e.b.Open() && BoundedAll([g, h], e.b.regs) && g.t == Varchar && h.t == Varchar && e.TestCode(g.v, h.v)
    ensures ComputesFrom(schema, e.b, e.c4, [g, h], [Flag(Reg(e.b.regs), EitherNull(g, h)),
      Flag(Reg(e.c3.regs), LengthsMatch(g, h))])
  {
    hide Met, At, Grown, Delivers, Fn.Add, Fn.Ins, Fn.Open;
    var b, c1, c2, c3, c4 := e.b, e.c1, e.c2, e.c3, e.c4;
    GrownStart(b);
    GrownStep(b, b, OrI(b.regs, g.v.isNull, h.v.isNull), c1);
    GrownStep(b, c1, CmpI(c1.regs, EQ, g.v.length, h.v.length), c2);
    GrownStep(b, c2, NotI(c2.regs, Reg(b.regs)), c3);
    GrownStep(b, c3, AndI(c3.regs, Reg(c1.regs), Reg(c2.regs)), c4);
    var gs := [Flag(Reg(b.regs), EitherNull(g, h)), Flag(Reg(c3.regs), LengthsMatch(g, h))];
    forall ctx, s | Starts(ctx, schema, b, s) && MetAll(ctx, [g, h], s) ensures Delivers(ctx, b, c4, gs, s) {
      TwoMet(ctx, g, h, s, b.regs);
      TestRow(ctx, e, g, h, s);
    }
  }

  lemma TestRow(ctx: Context, e: EqualCode, g: Goal, h: Goal, s: State)
    requires e.b.Open() && e.b.AtEnd(s) && Bounded(g.v, e.b.regs) && Bounded(h.v, e.b.regs) && e.TestCode(g.v, h.v)
    requires Met(ctx, g, s) && Met(ctx, h, s) && g.t == Varchar && h.t == Varchar
    ensures Delivers(ctx, e.b, e.c4, [Flag(Reg(e.b.regs), EitherNull(g, h)), Flag(Reg(e.c3.regs), LengthsMatch(g, h))],
      s)
  {
    hide At, Fn.Add, Fn.Ins, Fn.Open, Delivers, Met, Content;
    var b := e.b;
    var p, l, n := StrParts(ctx, g, s);
    var q, l', m := StrParts(ctx, h, s);
    Ready(ctx, b, s);
    var t := DoOr(ctx, b, b, e.c1, s, s, g.v.isNull, h.v.isNull, n, m);
    t := DoCmp(ctx, b, e.c1, e.c2, s, t, EQ, g.v.length, h.v.length, l, l');
    t := DoNot(ctx, b, e.c2, e.c3, s, t, Reg(b.regs), n || m);
    t := DoAnd(ctx, b, e.c3, e.c4, s, t, Reg(e.c1.regs), Reg(e.c2.regs), l == l', !(n || m));
    FlagMet(ctx, Reg(b.regs), EitherNull(g, h), t);
    FlagMet(ctx, Reg(e.c3.regs), LengthsMatch(g, h), t);
    DeliversTwo(ctx, b, e.c4, Flag(Reg(b.regs), EitherNull(g, h)), Flag(Reg(e.c3.regs), LengthsMatch(g, h)), s, t);
  }

  lemma DeliversTwo(ctx: Context, a: Fn, c: Fn, g: Goal, h: Goal, s: State, t: State)
    requires At(ctx, a, c, s, t) && Met(ctx, g, t) && Met(ctx, h, t)
    ensures Delivers(ctx, a, c, [g, h], s)
  {
    assert MetAll(ctx, [g, h], t);
  }

  /** The arm with the call. */
  lemma CallComputes(schema: seq<Type>, a: Fn, c: Fn, g: Goal, h: Goal, pre: seq<Goal>)
    requires a.Open() && BoundedAll([g, h], a.regs) && g.t == Varchar && h.t == Varchar && g in pre && h in pre
    requires Assume(LengthsMatch(g, h)) in pre
    requires IsAdd(a, CallStrEqualI(a.regs, g.v.data, g.v.length, h.v.data, h.v.length), c)
    ensures ComputesFrom(schema, a, c, pre, [Flag(Reg(a.regs), Equal(g, h))])
  {
    hide Met, At, Grown, Delivers, Fn.Add, Fn.Ins, Fn.Open;
    var i := CallStrEqualI(a.regs, g.v.data, g.v.length, h.v.data, h.v.length);
    GrownStart(a);
    GrownStep(a, a, i, c);
    assert [g, h][0] == g && [g, h][1] == h;
    forall ctx, s | Starts(ctx, schema, a, s) && MetAll(ctx, pre, s)
      ensures Delivers(ctx, a, c, [Flag(Reg(a.regs), Equal(g, h))], s) {
      InMet(ctx, g, pre, s);
      InMet(ctx, h, pre, s);
      InMet(ctx, Assume(LengthsMatch(g, h)), pre, s);
      AssumeMet(ctx, LengthsMatch(g, h), s);
      var p, l, n := StrParts(ctx, g, s);
      var q, l', m := StrParts(ctx, h, s);
      Ready(ctx, a, s);
      var t := DoStrEqual(ctx, a, a, c, s, s, g.v, h.v, p, l, q, l');
      FlagMet(ctx, Reg(a.regs), Equal(g, h), t);
      DeliversOne(ctx, a, c, Flag(Reg(a.regs), Equal(g, h)), s, t);
    }
  }

  lemma InMet(ctx: Context, g: Goal, pre: seq<Goal>, s: State)
    requires g in pre && MetAll(ctx, pre, s)
    ensures Met(ctx, g, s)
  {
    var j :| 0 <= j < |pre| && pre[j] == g;
    assert Met(ctx, pre[j], s);
  }

  /** On strings of one length the kernel is string equality. */
  lemma SameLengthEquals(p: string, l: int, q: string, m: int)
    requires l == |Content(VPtr(p), VInt(l))| == |Content(VPtr(q), VInt(m))| == m
    ensures StrEquals(Content(VPtr(p), VInt(l)), q) == Some(Content(VPtr(p), VInt(l)) == Content(VPtr(q), VInt(m)))
  {
    var x := Content(VPtr(p), VInt(l));
    assert Content(VPtr(q), VInt(m)) == q[..m];
    if q <= x {
      assert q[..m] == q;
    }
  }

  /** Without the length test it is not: a string equals every longer one that starts with it. */
  lemma PrefixEquals()
    ensures StrEquals("a", "ab") == Some(true) && Content(VPtr("a"), VInt(1)) != Content(VPtr("ab"), VInt(2))
  {
    assert "a" <= "ab";
  }

  lemma DoStrEqual(ctx: Context, a: Fn, c: Fn, d: Fn, s: State, t: State, g: CodeGenValue, h: CodeGenValue, p: string,
                   l: int, q: string, m: int) returns (u: State)
    requires At(ctx, a, c, s, t) && IsAdd(c, CallStrEqualI(c.regs, g.data, g.length, h.data, h.length), d)
    requires Ev(t, g.data) == Some(VPtr(p)) && Ev(t, g.length) == Some(VInt(l)) && Ev(t, h.data) == Some(VPtr(q)) &&
      Ev(t, h.length) == Some(VInt(m))
    requires l == |Content(VPtr(p), VInt(l))| == |Content(VPtr(q), VInt(m))| == m
    ensures At(ctx, a, d, s, u) && Defined(c, t, u, VBool(Content(VPtr(p), VInt(l)) == Content(VPtr(q), VInt(m))))
  {
    hide At, IsAdd, Content, StrEquals;
    SameLengthEquals(p, l, q, m);
    u := Do(ctx, a, c, d, s, t, CallStrEqualI(c.regs, g.data, g.length, h.data, h.length),
      VBool(Content(VPtr(p), VInt(l)) == Content(VPtr(q), VInt(m))));
  }

  /** The diamond around the call. */
  lemma PickComputes(schema: seq<Type>, e: EqualCode, g: Goal, h: Goal, pre: seq<Goal>, k: Goal)
    requires e.c4.Open() && BoundedAll(pre, e.c4.regs) && g.t == Varchar && h.t == Varchar && e.Built(g.v, h.v)
    requires pre == [g, h, Flag(Reg(e.b.regs), EitherNull(g, h)), Flag(Reg(e.c3.regs), LengthsMatch(g, h))]
    requires k == Flag(e.Same(), Equal(g, h))
    ensures e.D().f1.cur < |e.D().f1.blocks| && e.D().M < |e.D().f1.blocks|
    ensures ComputesFrom(schema, e.c4, e.Done(), pre, [k])
  {
    hide Grown, Fn.Open, Met, Delivers, DiamondParts, MergedValue;
    var d := e.D();
    var pick := LengthsMatch(g, h);
    var x, y := Flag(Reg(e.c4.regs), Equal(g, h)), Flag(Reg(e.c3.regs), pick);
    assert pre[0] == g && pre[1] == h && pre[3] == y;
    PickParts(schema, e, g, h, pre, pick, x, y);
    PickMerged(e, x, y, k);
    forall ctx | ContextOk(ctx, schema) ensures k.sem(ctx) == if pick(ctx) then x.sem(ctx) else y.sem(ctx) {
      SameMeansSameLength(g.sem(ctx), h.sem(ctx));
    }
    DiamondComputes(schema, d, pre, pre, pick, x, y, Parts(false, false), k);
  }

  lemma PickMerged(e: EqualCode, x: Goal, y: Goal, k: Goal)
    requires e.t1.cur < |e.t1.blocks| && x.t == y.t == k.t == Boolean && x.v.isNull == y.v.isNull == Const(VBool(false))
    requires k.v == CodeGenValue(e.Same(), Const(VBool(false)), NO_LENGTH)
    ensures MergedValue(e.D(), x, y, Parts(false, false), k)
  {
  }

  lemma PickParts(schema: seq<Type>, e: EqualCode, g: Goal, h: Goal, pre: seq<Goal>, pick: Context -> bool, x: Goal,
                  y: Goal)
    requires e.c4.Open() && BoundedAll(pre, e.c4.regs) && g.t == Varchar && h.t == Varchar && e.Built(g.v, h.v) &&
      pick == LengthsMatch(g, h)
    requires pre == [g, h, Flag(Reg(e.b.regs), EitherNull(g, h)), y] && x == Flag(Reg(e.c4.regs), Equal(g, h)) &&
      y == Flag(Reg(e.c3.regs), pick)
    ensures DiamondParts(schema, e.D(), pre, pre, pick, x, y)
  {
    hide Grown, Fn.Open, Met, Delivers;
    var d := e.D();
    assert pre[0] == g && pre[1] == h && pre[3] == y;
    Starts4(d);
    ComputesSame(schema, d.Created(), pre);
    assert Bounded(pre[0].v, e.c4.regs) && Bounded(pre[1].v, e.c4.regs) && Bounded(pre[3].v, e.c4.regs);
    CallComputes(schema, d.TrueStart(), d.t1, g, h, pre + [Assume(pick)]);
    TrueBuilt(d);
    ComputesSame(schema, d.FalseStart(), [y]);
    ComputesWeaken(schema, d.FalseStart(), d.FalseStart(), [y], pre + [Assume(Otherwise(pick))], [y]);
    forall ctx, s | ContextOk(ctx, schema) && MetAll(ctx, pre, s) ensures Ev(s, d.cond) == Some(VBool(pick(ctx))) {
      assert Met(ctx, pre[3], s);
      FlagMet(ctx, d.cond, pick, s);
    }
  }

  lemma Starts4(d: Diamond)
    requires d.base.Open() && d.c == d.Created()
    ensures d.Created().Open() && d.c.cur < |d.c.blocks| && d.TrueStart().Open() && d.TrueStart().regs == d.base.regs
    ensures Grown(d.Created(), d.c)
  {
    CreatedGrows(d);
    GrowsSelf(d.Created());
    GrowsJump(d.base, d.c, {d.T, d.F, d.M}, CondBr(d.cond, d.T, d.F), d.T);
  }

  lemma TrueBuilt(d: Diamond)
    requires d.base.Open() && d.c == d.Created() && Grown(d.Created(), d.c) && d.c.cur < |d.c.blocks| &&
      Grown(d.TrueStart(), d.t1)
    ensures d.t1.cur < |d.t1.blocks| && d.FalseStart().Open() && d.FalseStart().regs == d.t1.regs &&
      d.base.regs <= d.t1.regs
  {
    CreatedGrows(d);
    assert {d.T, d.F, d.M} - {d.T} == {d.F, d.M};
    GrowsJump(d.base, d.c, {d.T, d.F, d.M}, CondBr(d.cond, d.T, d.F), d.T);
    GrowsThen(d.base, d.TrueStart(), d.t1, {d.F, d.M});
    GrowsJump(d.base, d.t1, {d.F, d.M}, Br(d.M), d.F);
  }

  /** All of it: whether the strings are both there and equal, next to whether one is null. */
  lemma EqualComputes(schema: seq<Type>, e: EqualCode, g: Goal, h: Goal, k: Goal)
    requires e.b.Open() && BoundedAll([g, h], e.b.regs) && g.t == Varchar && h.t == Varchar && e.Built(g.v, h.v)
    requires k == Flag(e.Same(), Equal(g, h))
    ensures e.D().f1.cur < |e.D().f1.blocks| && e.D().M < |e.D().f1.blocks|
    ensures ComputesFrom(schema, e.b, e.Done(),
                         [g, h], [g, h, Flag(Reg(e.b.regs), EitherNull(g, h)), k])
  {
    hide Met, Delivers, Fn.Ins, Fn.Open, EqualCode.D;
    var n, len := Flag(Reg(e.b.regs), EitherNull(g, h)), Flag(Reg(e.c3.regs), LengthsMatch(g, h));
    var d := e.D();
    TestComputes(schema, e, g, h);
    ComputesKeep(schema, e.b, e.c4, [g, h], [n, len]);
    assert [g, h] + [n, len] == [g, h, n, len];
    var mid := [g, h, n, len];
    GrownIsOpen(e.b, e.c4);
    PickComputes(schema, e, g, h, mid, k);
    var z := e.Done();
    ComputesKeep(schema, e.c4, z, mid, [k]);
    ComputesSeq(schema, e.b, e.c4, z, [g, h], mid, mid + [k]);
    ComputesPick(schema, e.b, z, [g, h], mid + [k], [g, h, n, k]);
  }

  lemma GrownIsOpen(a: Fn, b: Fn)
    requires Grown(a, b)
    ensures b.Open() && a.regs <= b.regs
  {
  }

  // ---------- = and <> on strings ----------

  /** What follows the diamond: the result's null flag, after a negation for <>. */
  ghost predicate EqualityCode(z: Fn, c1: Fn, c: Fn, op: CmpOp, same: Operand, g: CodeGenValue, h: CodeGenValue) {
    && (op == EQ || op == NEQ)
    && (if op == EQ then c1 == z else IsAdd(z, NotI(z.regs, same), c1))
    && IsAdd(c1, OrI(c1.regs, g.isNull, h.isNull), c)
  }

  lemma EqualityComputes(schema: seq<Type>, z: Fn, c1: Fn, c: Fn, op: CmpOp, same: Operand, g: Goal, h: Goal, k: Goal)
    requires z.Open() && BoundedAll([g, h, Flag(same, Equal(g, h))], z.regs) && g.t == Varchar && h.t == Varchar
    requires EqualityCode(z, c1, c, op, same, g.v, h.v)
    requires k.t == Boolean && k.v == CodeGenValue(if op == EQ then same else Reg(z.regs), Reg(c1.regs), NO_LENGTH)
    requires forall ctx | ContextOk(ctx, schema) :: k.sem(ctx) == CompareSql(ctx.kernels, op, g.sem(ctx), h.sem(ctx))
    ensures ComputesFrom(schema, z, c, [g, h, Flag(same, Equal(g, h))], [k])
  {
    hide Met, At, Grown, Delivers, Fn.Add, Fn.Ins, Fn.Open, Flag;
    GrownStart(z);
    if op == NEQ {
      GrownStep(z, z, NotI(z.regs, same), c1);
    }
    GrownStep(z, c1, OrI(c1.regs, g.v.isNull, h.v.isNull), c);
    var pre := [g, h, Flag(same, Equal(g, h))];
    assert pre[0] == g && pre[1] == h && pre[2] == Flag(same, Equal(g, h));
    BoundedFlag(same, Equal(g, h), z.regs);
    forall ctx, s | Starts(ctx, schema, z, s) && MetAll(ctx, pre, s) ensures Delivers(ctx, z, c, [k], s) {
      assert Met(ctx, pre[0], s) && Met(ctx, pre[1], s) && Met(ctx, pre[2], s);
      EqualityRow(ctx, z, c1, c, op, same, g, h, k, s);
    }
  }

  lemma BoundedFlag(o: Operand, p: Context -> bool, n: nat)
    ensures Bounded(Flag(o, p).v, n) <==> Below(o, n)
  {
  }

  lemma EqualityRow(ctx: Context, z: Fn, c1: Fn, c: Fn, op: CmpOp, same: Operand, g: Goal, h: Goal, k: Goal, s: State)
    requires z.Open() && z.AtEnd(s) && Bounded(g.v, z.regs) && Bounded(h.v, z.regs) && Below(same, z.regs)
    requires EqualityCode(z, c1, c, op, same, g.v, h.v)
    requires Met(ctx, g, s) && Met(ctx, h, s) && Met(ctx, Flag(same, Equal(g, h)), s) && g.t == Varchar &&
      h.t == Varchar
    requires k.t == Boolean && k.v == CodeGenValue(if op == EQ then same else Reg(z.regs), Reg(c1.regs), NO_LENGTH)
    requires k.sem(ctx) == CompareSql(ctx.kernels, op, g.sem(ctx), h.sem(ctx))
    ensures Delivers(ctx, z, c, [k], s)
  {
    hide At, Fn.Add, Fn.Ins, Fn.Open, Delivers, Met, Content;
    var p, l, n := StrParts(ctx, g, s);
    var q, l', m := StrParts(ctx, h, s);
    FlagMet(ctx, same, Equal(g, h), s);
    var x := Equal(g, h)(ctx);
    Ready(ctx, z, s);
    var t := s;
    if op == NEQ {
      t := DoNot(ctx, z, z, c1, s, s, same, x);
    }
    t := DoOr(ctx, z, c1, c, s, t, g.v.isNull, h.v.isNull, n, m);
    MetBool(ctx, k, t, if op == EQ then x else !x, n || m);
    DeliversOne(ctx, z, c, k, s, t);
  }

  /** The whole of = and <>. */
  lemma StrEqualityComputes(schema: seq<Type>, e: EqualCode, c1: Fn, c: Fn, op: CmpOp, g: Goal, h: Goal, k: Goal)
    requires e.b.Open() && BoundedAll([g, h], e.b.regs) && g.t == Varchar && h.t == Varchar && e.Built(g.v, h.v)
    requires e.D().f1.cur < |e.D().f1.blocks| && e.D().M < |e.D().f1.blocks|
    requires EqualityCode(e.Done(), c1, c, op, e.Same(), g.v, h.v)
    requires k.t == Boolean && k.v == CodeGenValue(if op == EQ then e.Same()
      else Reg(e.Done().regs), Reg(c1.regs), NO_LENGTH)
    requires forall ctx | ContextOk(ctx, schema) :: k.sem(ctx) == CompareSql(ctx.kernels, op, g.sem(ctx), h.sem(ctx))
    ensures ComputesFrom(schema, e.b, c, [g, h], [k])
  {
    var same := Flag(e.Same(), Equal(g, h));
    hide Met, Delivers, Grown, Fn.Ins, Fn.Open, EqualCode.D, EqualCode.Done, EqualCode.Built;
    EqualComputes(schema, e, g, h, same);
    ComputesPick(schema, e.b, e.Done(), [g, h], [g, h, Flag(Reg(e.b.regs), EitherNull(g, h)), same], [g, h, same]);
    GrownIsOpen(e.b, e.Done());
    EqualityComputes(schema, e.Done(), c1, c, op, e.Same(), g, h, k);
    ComputesSeq(schema, e.b, e.Done(), c, [g, h], [g, h, same], [k]);
  }
}
