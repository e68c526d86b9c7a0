/** IF and COALESCE: diamonds whose arms are subtrees. */
module ChoiceProofs {
  import opened SqlValues
  import opened Expressions
  import opened BlockIR
  import opened CodeShape
  import opened Translation
  import opened Steps
  import opened BranchProofs
  import opened StringEqualProofs

  ghost function IsTrue(g: Goal): Context -> bool {
    ctx => g.sem(ctx) == TRUE
  }

  ghost function IsAbsent(g: Goal): Context -> bool {
    ctx => g.sem(ctx).Null?
  }

  /** `not null and true`: a condition decides only when it is a definite true. */
  ghost predicate DecideCode(b: Fn, c1: Fn, c: Fn, g: CodeGenValue) {
    && IsAdd(b, NotI(b.regs, g.isNull), c1)
    && IsAdd(c1, AndI(c1.regs, Reg(b.regs), g.data), c)
  }

  lemma DecideComputes(schema: seq<Type>, b: Fn, c1: Fn, c: Fn, g: Goal)
    requires b.Open() && BoundedAll([g], b.regs) && g.t == Boolean && DecideCode(b, c1, c, g.v)
    ensures ComputesFrom(schema, b, c, [g], [Flag(Reg(c1.regs), IsTrue(g))])
  {
    hide Met, At, Grown, Delivers, Fn.Add, Fn.Open;
    GrownStart(b);
    GrownStep(b, b, NotI(b.regs, g.v.isNull), c1);
    GrownStep(b, c1, AndI(c1.regs, Reg(b.regs), g.v.data), c);
    assert Bounded([g][0].v, b.regs);
    forall ctx, s | Starts(ctx, schema, b, s) && MetAll(ctx, [g], s)
      ensures Delivers(ctx, b, c, [Flag(Reg(c1.regs), IsTrue(g))], s) {
      OneMet(ctx, g, s, b.regs);
      var x, n := BoolParts(ctx, g, s);
      Ready(ctx, b, s);
      var t := DoNot(ctx, b, b, c1, s, s, g.v.isNull, n);
      t := DoAnd(ctx, b, c1, c, s, t, Reg(b.regs), g.v.data, !n, x);
      FlagMet(ctx, Reg(c1.regs), IsTrue(g), t);
      DeliversOne(ctx, b, c, Flag(Reg(c1.regs), IsTrue(g)), s, t);
    }
  }

  /** The parts a subtree's value needs at a merge. */
  function ValueParts(t: Type): Parts {
    Parts(true, t == Varchar)
  }

  /** IF: a null condition takes the else arm. */
  lemma IfComputes(schema: seq<Type>, d: Diamond, c0: Fn, c1: Fn, g: Goal, x: Goal, y: Goal, k: Goal)
    requires d.base.Open() && g.t == Boolean && x.t == y.t == k.t
    requires Computes(schema, d.Created(), c0, [g]) && DecideCode(c0, c1, d.c, g.v) && d.cond == Reg(c1.regs)
    requires d.c.cur < |d.c.blocks| && Computes(schema, d.TrueStart(), d.t1, [x])
    requires d.t1.cur < |d.t1.blocks| && Computes(schema, d.FalseStart(), d.f1, [y])
    requires MergedValue(d, x, y, ValueParts(k.t), k)
    requires forall ctx | ContextOk(ctx, schema) :: k.sem(ctx) == if g.sem(ctx) == TRUE then x.sem(ctx) else y.sem(ctx)
    ensures d.f1.cur < |d.f1.blocks| && d.M < |d.f1.blocks|
    ensures Computes(schema, d.base, d.Done(x.v, y.v, ValueParts(k.t)), [k])
  {
    hide Delivers, Grown, Met, Fn.Open, MergedValue, Diamond.Created;
    var pick := IsTrue(g);
    var mid := [Flag(d.cond, pick)];
    GrownIsOpen(d.Created(), c0);
    DecideComputes(schema, c0, c1, d.c, g);
    ComputesMore(schema, d.Created(), c0, d.c, [g], mid);
    ComputesWeaken(schema, d.TrueStart(), d.t1, [], mid + [Assume(pick)], [x]);
    ComputesWeaken(schema, d.FalseStart(), d.f1, [], mid + [Assume(Otherwise(pick))], [y]);
    forall ctx, s | ContextOk(ctx, schema) && MetAll(ctx, mid, s) ensures Ev(s, d.cond) == Some(VBool(pick(ctx))) {
      assert Met(ctx, mid[0], s);
      FlagMet(ctx, d.cond, pick, s);
    }
    DiamondComputes(schema, d, [], mid, pick, x, y, ValueParts(k.t), k);
  }

  /** COALESCE: the first operand unless it is null; the arms meet in the order null, not null. */
  lemma CoalesceComputes(schema: seq<Type>, a: Fn, d: Diamond, g: Goal, x: Goal, k: Goal)
    requires Computes(schema, a, d.base, [g]) && d.c == d.Created() && d.cond == g.v.isNull && x.t == g.t == k.t
    requires d.c.cur < |d.c.blocks| && Computes(schema, d.TrueStart(), d.t1, [x])
    requires d.t1.cur < |d.t1.blocks| && d.f1 == d.FalseStart()
    requires MergedValue(d, x, g, ValueParts(k.t), k)
    requires forall ctx | ContextOk(ctx, schema) :: k.sem(ctx) == if g.sem(ctx).Null? then x.sem(ctx) else g.sem(ctx)
    ensures d.f1.cur < |d.f1.blocks| && d.M < |d.f1.blocks|
    ensures Computes(schema, a, d.Done(x.v, g.v, ValueParts(k.t)), [k])
  {
    hide Delivers, Grown, Met, Fn.Open, MergedValue, Diamond.Created;
    var pick := IsAbsent(g);
    GrownIsOpen(a, d.base);
    Starts4(d);
    assert Bounded([g][0].v, d.base.regs);
    ComputesSame(schema, d.Created(), [g]);
    TrueBuilt(d);
    ComputesSame(schema, d.FalseStart(), [g]);
    ComputesWeaken(schema, d.TrueStart(), d.t1, [], [g] + [Assume(pick)], [x]);
    ComputesWeaken(schema, d.FalseStart(), d.f1, [g], [g] + [Assume(Otherwise(pick))], [g]);
    forall ctx, s | ContextOk(ctx, schema) && MetAll(ctx, [g], s) ensures Ev(s, d.cond) == Some(VBool(pick(ctx))) {
      assert Met(ctx, [g][0], s);
      var n := NullPart(ctx, g, s);
    }
    DiamondComputes(schema, d, [g], [g], pick, x, g, ValueParts(k.t), k);
    ComputesMore(schema, a, d.base, d.Done(x.v, g.v, ValueParts(k.t)), [g], [k]);
  }
}
