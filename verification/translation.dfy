/** What it means for emitted code to compute a value, and how such pieces are put together: run one after the
    other, with the values of the first kept while the second runs. */
module Translation {
  import opened SqlValues
  import opened Expressions
  import opened BlockIR
  import opened CodeShape

  /** The operands holding a result: data, null flag and (strings only) length. */
  datatype CodeGenValue = CodeGenValue(data: Operand, isNull: Operand, length: Operand)

  const NO_LENGTH := Const(VInt(0))

  predicate Below(o: Operand, n: nat) {
    o.Reg? ==> o.r < n
  }

  predicate Bounded(v: CodeGenValue, n: nat) {
    Below(v.data, n) && Below(v.isNull, n) && Below(v.length, n)
  }

  /** What the operands of a result hold in a state. */
  function ArgAt(v: CodeGenValue, s: State): Option<Arg> {
    match (Ev(s, v.data), BoolOf(s, v.isNull), Ev(s, v.length))
    case (Some(d), Some(n), Some(l)) => Some(Arg(d, l, n))
    case _ => None
  }

  /** The result denotes `sql`, with anything of the right type behind a null. */
  ghost predicate Holds(t: Type, v: CodeGenValue, sql: Sql, s: State) {
    match ArgAt(v, s)
    case Some(a) => ArgOk(t, a) && SqlOf(t, a) == sql
    case None => false
  }

  /** A claim about emitted code: `v` denotes, on every row, the value `sem` of type `t`. */
  datatype Goal = Goal(t: Type, v: CodeGenValue, sem: Context -> Sql)

  ghost predicate Met(ctx: Context, g: Goal, s: State) {
    Holds(g.t, g.v, g.sem(ctx), s)
  }

  ghost predicate MetAll(ctx: Context, gs: seq<Goal>, s: State) {
    forall i | 0 <= i < |gs| :: Met(ctx, gs[i], s)
  }

  ghost predicate Starts(ctx: Context, schema: seq<Type>, fn: Fn, s: State) {
    ContextOk(ctx, schema) && fn.AtEnd(s)
  }

  ghost predicate Delivers(ctx: Context, a: Fn, b: Fn, gs: seq<Goal>, s: State) {
    exists u :: Arrives(ctx, a, b, s, u) && MetAll(ctx, gs, u)
  }

  ghost predicate BoundedAll(gs: seq<Goal>, n: nat) {
    forall i | 0 <= i < |gs| :: Bounded(gs[i].v, n)
  }

  /** From `a` to `b` code was emitted that, given `pre`, establishes `gs`: from the old insertion point, on any
      row and in any machine state where `pre` holds, the machine gets to the new insertion point without getting
      stuck, with `gs` met and everything defined earlier unchanged. */
  ghost predicate ComputesFrom(schema: seq<Type>, a: Fn, b: Fn, pre: seq<Goal>, gs: seq<Goal>) {
    && Grown(a, b) && BoundedAll(gs, b.regs)
    && forall ctx, s | Starts(ctx, schema, a, s) && MetAll(ctx, pre, s) :: Delivers(ctx, a, b, gs, s)
  }

  ghost predicate Computes(schema: seq<Type>, a: Fn, b: Fn, gs: seq<Goal>) {
    ComputesFrom(schema, a, b, [], gs)
  }

  /** The SQL value of a tree, as a function of the row. */
  ghost function Meaning(schema: seq<Type>, ov: bool, e: Expr): Context -> Sql
    requires WellTyped(e, schema)
  {
    ctx => if ContextOk(ctx, schema) then Eval(ctx, schema, ov, e) else Null
  }

  ghost function GoalOf(schema: seq<Type>, ov: bool, e: Expr, v: CodeGenValue): Goal
    requires WellTyped(e, schema)
  {
    Goal(TypeOf(e), v, Meaning(schema, ov, e))
  }

  /** The code from `a` to `b` computes the tree `e` into `v`. */
  ghost predicate Translates(schema: seq<Type>, ov: bool, a: Fn, b: Fn, e: Expr, v: CodeGenValue)
    requires WellTyped(e, schema)
  {
    Computes(schema, a, b, [GoalOf(schema, ov, e, v)])
  }

  lemma HoldsFrame(fn: Fn, t: Type, v: CodeGenValue, sql: Sql, s: State, u: State)
    requires Bounded(v, fn.regs) && Frame(fn, s, u) && Holds(t, v, sql, s)
    ensures Holds(t, v, sql, u) && ArgAt(v, s) == ArgAt(v, u)
  {
  }

  lemma MetAllFrame(ctx: Context, fn: Fn, gs: seq<Goal>, s: State, u: State)
    requires BoundedAll(gs, fn.regs) && Frame(fn, s, u) && MetAll(ctx, gs, s)
    ensures MetAll(ctx, gs, u)
  {
    forall i | 0 <= i < |gs| ensures Met(ctx, gs[i], u) {
      assert Met(ctx, gs[i], s);
      HoldsFrame(fn, gs[i].t, gs[i].v, gs[i].sem(ctx), s, u);
    }
  }

  lemma FrameTrans(a: Fn, b: Fn, s: State, t: State, u: State)
    requires Frame(a, s, t) && Frame(b, t, u) && a.regs <= b.regs && a.slots <= b.slots
    ensures Frame(a, s, u)
  {
  }

  // ---------- paths through finished code ----------

  /** Within the finished blocks `z`, the machine gets from `s` to `u` keeping what `a` had defined. */
  ghost predicate Path(ctx: Context, a: Fn, z: seq<Block>, s: State, u: State) {
    Reaches(ctx, z, s, u) && Frame(a, s, u)
  }

  lemma PathSelf(ctx: Context, a: Fn, z: seq<Block>, s: State)
    ensures Path(ctx, a, z, s, s)
  {
    ReachesSelf(ctx, z, s);
  }

  /** Run code met on the way. */
  lemma PathVisit(ctx: Context, schema: seq<Type>, a: Fn, b: Fn, c: Fn, pre: seq<Goal>, gs: seq<Goal>, z: seq<Block>,
                  s: State, t: State)
    returns (u: State)
    requires Path(ctx, a, z, s, t) && Starts(ctx, schema, b, t) && a.regs <= b.regs && a.slots <= b.slots
    requires ComputesFrom(schema, b, c, pre, gs) && MetAll(ctx, pre, t) && Sub(c.blocks, z)
    ensures Path(ctx, a, z, s, u) && c.AtEnd(u) && Frame(b, t, u) && MetAll(ctx, gs, u)
  {
    assert Delivers(ctx, b, c, gs, t);
    u :| Arrives(ctx, b, c, t, u) && MetAll(ctx, gs, u);
    ReachesSub(ctx, c.blocks, z, t, u);
    ReachesTrans(ctx, z, s, t, u);
    FrameTrans(a, b, s, t, u);
  }

  /** Run code that was appended at the end of `b`. */
  lemma PathArrives(ctx: Context, a: Fn, b: Fn, c: Fn, z: seq<Block>, s: State, t: State, u: State)
    requires Path(ctx, a, z, s, t) && Arrives(ctx, b, c, t, u) && Sub(c.blocks, z) && a.regs <= b.regs &&
      a.slots <= b.slots
    ensures Path(ctx, a, z, s, u)
  {
    ReachesSub(ctx, c.blocks, z, t, u);
    ReachesTrans(ctx, z, s, t, u);
    FrameTrans(a, b, s, t, u);
  }

  /** Take the branch at the end of `b`. */
  lemma PathJump(ctx: Context, a: Fn, b: Fn, term: Term, target: nat, z: seq<Block>, s: State, t: State)
    requires b.cur < |b.blocks| && b.AtEnd(t) && Path(ctx, a, z, s, t) && Sub(b.Close(term).blocks, z)
    requires match term
             case Br(x) => target == x
             case CondBr(c, x, y) =>
               (BoolOf(t, c) == Some(true) && target == x) || (BoolOf(t, c) == Some(false) && target == y)
             case Ret(_, _, _) => false
    ensures Path(ctx, a, z, s, Enter(t, target))
  {
    assert b.Close(term).blocks[b.cur] == z[b.cur];
    ReachesStep(ctx, z, t, Enter(t, target));
    ReachesTrans(ctx, z, s, t, Enter(t, target));
  }

  // ---------- putting pieces together ----------

  lemma ComputesNone(schema: seq<Type>, a: Fn)
    requires a.Open()
    ensures Computes(schema, a, a, [])
  {
    GrowsSelf(a);
    forall ctx, s | Starts(ctx, schema, a, s) ensures Delivers(ctx, a, a, [], s) {
      ReachesSelf(ctx, a.blocks, s);
      assert Arrives(ctx, a, a, s, s);
    }
  }

  /** Compute some operands, then more. */
  lemma ComputesMore(schema: seq<Type>, a: Fn, b: Fn, c: Fn, gs: seq<Goal>, hs: seq<Goal>)
    requires Computes(schema, a, b, gs) && ComputesFrom(schema, b, c, gs, hs)
    ensures Computes(schema, a, c, gs + hs) && Computes(schema, a, c, hs)
  {
    hide Met, Holds;
    GrownTrans(a, b, c);
    GrowsSub(b, c, {});
    forall ctx, s | Starts(ctx, schema, a, s) ensures Delivers(ctx, a, c, gs + hs, s) && Delivers(ctx, a, c, hs, s) {
      assert Delivers(ctx, a, b, gs, s);
      var t :| Arrives(ctx, a, b, s, t) && MetAll(ctx, gs, t);
      ReachesSub(ctx, b.blocks, c.blocks, s, t);
      var u := PathVisit(ctx, schema, a, b, c, gs, hs, c.blocks, s, t);
      MetAllFrame(ctx, b, gs, t, u);
      assert Arrives(ctx, a, c, s, u) && MetAll(ctx, gs + hs, u);
    }
  }

  /** Code that needs less also works where more is known. */
  lemma ComputesWeaken(schema: seq<Type>, a: Fn, b: Fn, less: seq<Goal>, pre: seq<Goal>, gs: seq<Goal>)
    requires ComputesFrom(schema, a, b, less, gs) && forall i | 0 <= i < |less| :: less[i] in pre
    ensures ComputesFrom(schema, a, b, pre, gs)
  {
    forall ctx, s | Starts(ctx, schema, a, s) && MetAll(ctx, pre, s) ensures Delivers(ctx, a, b, gs, s) {
      forall i | 0 <= i < |less| ensures Met(ctx, less[i], s) {
        assert less[i] in pre;
        var j :| 0 <= j < |pre| && pre[j] == less[i];
        assert Met(ctx, pre[j], s);
      }
      assert MetAll(ctx, less, s);
    }
  }

  /** What held before still holds. */
  lemma ComputesKeep(schema: seq<Type>, a: Fn, b: Fn, pre: seq<Goal>, gs: seq<Goal>)
    requires ComputesFrom(schema, a, b, pre, gs) && BoundedAll(pre, a.regs)
    ensures ComputesFrom(schema, a, b, pre, pre + gs)
  {
    forall ctx, s | Starts(ctx, schema, a, s) && MetAll(ctx, pre, s) ensures Delivers(ctx, a, b, pre + gs, s) {
      assert Delivers(ctx, a, b, gs, s);
      var u :| Arrives(ctx, a, b, s, u) && MetAll(ctx, gs, u);
      MetAllFrame(ctx, a, pre, s, u);
      assert MetAll(ctx, pre + gs, u);
    }
  }

  lemma ComputesSeq(schema: seq<Type>, a: Fn, b: Fn, c: Fn, pre: seq<Goal>, mid: seq<Goal>, gs: seq<Goal>)
    requires ComputesFrom(schema, a, b, pre, mid) && ComputesFrom(schema, b, c, mid, gs)
    ensures ComputesFrom(schema, a, c, pre, gs)
  {
    GrownTrans(a, b, c);
    GrowsSub(b, c, {});
    forall ctx, s | Starts(ctx, schema, a, s) && MetAll(ctx, pre, s) ensures Delivers(ctx, a, c, gs, s) {
      assert Delivers(ctx, a, b, mid, s);
      var t :| Arrives(ctx, a, b, s, t) && MetAll(ctx, mid, t);
      ReachesSub(ctx, b.blocks, c.blocks, s, t);
      var u := PathVisit(ctx, schema, a, b, c, mid, gs, c.blocks, s, t);
      assert Arrives(ctx, a, c, s, u);
    }
  }

  /** Some of what was established. */
  lemma ComputesPick(schema: seq<Type>, a: Fn, b: Fn, pre: seq<Goal>, gs: seq<Goal>, hs: seq<Goal>)
    requires ComputesFrom(schema, a, b, pre, gs) && forall i | 0 <= i < |hs| :: hs[i] in gs
    ensures ComputesFrom(schema, a, b, pre, hs)
  {
    forall i | 0 <= i < |hs| ensures Bounded(hs[i].v, b.regs) {
      assert hs[i] in gs;
      var j :| 0 <= j < |gs| && gs[j] == hs[i];
    }
    forall ctx, s | Starts(ctx, schema, a, s) && MetAll(ctx, pre, s) ensures Delivers(ctx, a, b, hs, s) {
      assert Delivers(ctx, a, b, gs, s);
      var u :| Arrives(ctx, a, b, s, u) && MetAll(ctx, gs, u);
      forall i | 0 <= i < |hs| ensures Met(ctx, hs[i], u) {
        assert hs[i] in gs;
        var j :| 0 <= j < |gs| && gs[j] == hs[i];
        assert Met(ctx, gs[j], u);
      }
      assert MetAll(ctx, hs, u);
    }
  }

  /** No code at all. */
  lemma ComputesSame(schema: seq<Type>, a: Fn, gs: seq<Goal>)
    requires a.Open() && BoundedAll(gs, a.regs)
    ensures ComputesFrom(schema, a, a, gs, gs)
  {
    ComputesNone(schema, a);
    ComputesWeaken(schema, a, a, [], gs, []);
    ComputesKeep(schema, a, a, gs, []);
    assert gs + [] == gs;
  }

  /** A claim about the row only, usable where goals are. */
  ghost function Assume(p: Context -> bool): Goal {
    Goal(Boolean, CodeGenValue(Const(VBool(true)), Const(VBool(false)), NO_LENGTH), ctx => Value(VBool(p(ctx))))
  }

  lemma AssumeMet(ctx: Context, p: Context -> bool, s: State)
    ensures Met(ctx, Assume(p), s) <==> p(ctx)
  {
  }

  /** The operands of a node with two children. */
  lemma ComputesTwo(schema: seq<Type>, a: Fn, b: Fn, c: Fn, g: Goal, h: Goal)
    requires Computes(schema, a, b, [g]) && Computes(schema, b, c, [h])
    ensures Computes(schema, a, c, [g, h])
  {
    ComputesWeaken(schema, b, c, [], [g], [h]);
    ComputesMore(schema, a, b, c, [g], [h]);
    assert [g] + [h] == [g, h];
  }
}
