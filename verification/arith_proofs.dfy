/** Integer arithmetic: with a null operand the code branches around the operands and phis feed the kernel 0 and 1. */
module ArithProofs {
  import opened SqlValues
  import opened Expressions
  import opened BlockIR
  import opened CodeShape
  import opened Translation
  import opened Steps

  /** The code up to the phis: two fresh blocks, the null condition, and a branch through the null block. */
  datatype Detour = Detour(base: Fn, c: Fn, ln: Operand, rn: Operand) {
    const N := |base.blocks|
    const X := |base.blocks| + 1

    function Cond(): Operand {
      Reg(base.regs)
    }

    function NullStart(): Fn
      requires c.cur < |c.blocks|
    {
      c.Close(CondBr(Cond(), N, X)).At(N)
    }

    function Join(): Fn
      requires c.cur < |c.blocks| && N < |c.blocks|
    {
      NullStart().Close(Br(X)).At(X)
    }

    ghost predicate Built() {
      base.cur < |base.blocks| && IsAdd(base.NewBlock().NewBlock(), OrI(base.regs, ln, rn), c)
    }
  }

  lemma DetourGrows(a: Fn, d: Detour)
    requires Grown(a, d.base) && d.Built()
    ensures d.N < |d.c.blocks| && d.X < |d.c.blocks| && d.c.cur == d.base.cur && d.c.cur < d.N &&
      d.c.regs == d.base.regs + 1 && d.c.slots == d.base.slots
    ensures Grows(a, d.c, {d.N, d.X}) && Grows(a, d.NullStart(), {d.X}) && Grown(a, d.Join())
    ensures Sub(d.c.blocks, d.NullStart().blocks) && Sub(d.NullStart().blocks, d.Join().blocks) && |a.blocks| <= d.X
    ensures d.NullStart().blocks[d.N].instrs == [] && d.Join().blocks[d.X].instrs == []
    ensures d.c.Open() && d.NullStart().Open() && d.Join().Open()
  {
    var b := d.base;
    GrowsNewBlock(a, b, {});
    GrowsNewBlock(a, b.NewBlock(), {} + {d.N});
    assert {} + {d.N} + {d.X} == {d.N, d.X} && {d.N, d.X} - {d.N} == {d.X} && {d.X} - {d.X} == {};
    assert |a.blocks| <= d.X && b.cur < d.N;
    GrowsIns(a, b.NewBlock().NewBlock(), {d.N, d.X}, [OrI(b.regs, d.ln, d.rn)], 1);
    JoinGrows(a, d);
  }

  lemma JoinGrows(a: Fn, d: Detour)
    requires Grows(a, d.c, {d.N, d.X}) && d.N < |d.c.blocks| && d.X < |d.c.blocks| && d.c.cur < |d.c.blocks|
    ensures Grows(a, d.NullStart(), {d.X}) && Grown(a, d.Join())
    ensures Sub(d.c.blocks, d.NullStart().blocks) && Sub(d.NullStart().blocks, d.Join().blocks)
    ensures d.NullStart().blocks[d.N].instrs == [] && d.Join().blocks[d.X].instrs == [] && d.Join().Open()
  {
    assert {d.N, d.X} - {d.N} == {d.X} && {d.X} - {d.X} == {};
    GrowsJump(a, d.c, {d.N, d.X}, CondBr(d.Cond(), d.N, d.X), d.N);
    GrowsJump(a, d.NullStart(), {d.X}, Br(d.X), d.X);
  }

  /** The join is entered from the null block and from the block before it, and from nowhere else. */
  lemma JoinPreds(d: Detour)
    requires d.base.Open() && d.Built() && d.c.cur == d.base.cur && d.N < |d.c.blocks| && d.c.Open() &&
      d.NullStart().Open()
    ensures PredsAre(d.Join().blocks, d.X, {d.c.cur, d.N})
  {
    forall p: nat ensures !IsPred(d.c.blocks, p, d.X) {
      assert IsPred(d.c.blocks, p, d.X) ==> IsPred(d.base.blocks, p, d.X);
    }
    assert PredsAre(d.c.blocks, d.X, {});
    assert {} + {d.c.cur} + {d.N} == {d.c.cur, d.N};
    hide PredsAre, Fn.Open;
    PredsClose(d.c, d.X, {}, CondBr(d.Cond(), d.N, d.X), d.N);
    PredsClose(d.NullStart(), d.X, {} + {d.c.cur}, Br(d.X), d.X);
  }

  function Phi(d: Detour, r: nat, zero: Operand, o: Operand): Instr {
    PhiI(r, [(d.N, zero), (d.c.cur, o)])
  }

  lemma JoinPhiOk(d: Detour, r: nat, zero: Operand, o: Operand)
    requires d.c.cur < |d.c.blocks| && d.N < |d.c.blocks| && d.c.cur != d.N
    requires PredsAre(d.Join().blocks, d.X, {d.c.cur, d.N})
    ensures PhiOk(d.Join().blocks, d.X, Phi(d, r, zero, o).incoming)
  {
    var inc := Phi(d, r, zero, o).incoming;
    assert inc[0].0 == d.N && inc[1].0 == d.c.cur && |inc| == 2;
  }

  lemma TwoAdds(j: Fn, p: Instr, q: Instr, m1: Fn, m2: Fn)
    requires IsAdd(j, p, m1) && IsAdd(m1, q, m2)
    ensures m2 == j.Ins([p, q], 2)
  {
    InsIns(j, [p], 1, [q], 1);
    assert [p] + [q] == [p, q];
  }

  lemma JoinGrown(a: Fn, j: Fn, p: Instr, q: Instr, m2: Fn)
    requires Grown(a, j) && |a.blocks| <= j.cur < |j.blocks| && j.blocks[j.cur].instrs == [] && m2 == j.Ins([p, q], 2)
    requires p.PhiI? && q.PhiI? && PhiOk(j.blocks, j.cur, p.incoming) && PhiOk(j.blocks, j.cur, q.incoming)
    ensures Grown(a, m2) && Sub(j.blocks, m2.blocks)
  {
    GrowsPhis(a, j, {}, [p, q], 2);
  }

  lemma JoinShape(a: Fn, d: Detour, m1: Fn, m2: Fn, lz: Operand, l: Operand, rz: Operand, r: Operand)
    requires Grown(a, d.base) && d.Built() && d.c.cur < |d.c.blocks| && d.N < |d.c.blocks|
    requires IsAdd(d.Join(), Phi(d, d.c.regs, lz, l), m1) && IsAdd(m1, Phi(d, m1.regs, rz, r), m2)
    ensures Grown(a, m2) && Sub(d.Join().blocks, m2.blocks)
  {
    DetourGrows(a, d);
    assert d.base.Open() && d.Join().cur == d.X;
    hide Grows, Sub, PhiOk, PredsAre, Fn.Open, Fn.Close;
    JoinPreds(d);
    JoinPhiOk(d, d.c.regs, lz, l);
    JoinPhiOk(d, m1.regs, rz, r);
    TwoAdds(d.Join(), Phi(d, d.c.regs, lz, l), Phi(d, m1.regs, rz, r), m1, m2);
    JoinGrown(a, d.Join(), Phi(d, d.c.regs, lz, l), Phi(d, m1.regs, rz, r), m2);
  }

  // ---------- running it ----------

  /** Slots and operands over earlier registers read as before. */
  ghost predicate Same(n: nat, s: State, t: State) {
    t.slots == s.slots && forall o: Operand | Below(o, n) :: Ev(t, o) == Ev(s, o)
  }

  lemma DoJoinPhi(ctx: Context, a: Fn, d: Detour, c: Fn, e: Fn, s: State, t: State, zero: Operand, o: Operand, v: Val)
                  returns (u: State)
    requires At(ctx, a, c, s, t) && IsAdd(c, Phi(d, c.regs, zero, o), e) && d.c.cur != d.N
    requires (t.prev == d.N && Ev(t, zero) == Some(v)) || (t.prev == d.c.cur && Ev(t, o) == Some(v))
    ensures At(ctx, a, e, s, u) && Defined(c, t, u, v)
  {
    hide At, IsAdd;
    var inc := [(d.N, zero), (d.c.cur, o)];
    assert inc[1..] == [(d.c.cur, o)];
    assert Incoming(inc, t.prev) == Some(if t.prev == d.N then zero else o);
    u := Do(ctx, a, c, e, s, t, Phi(d, c.regs, zero, o), v);
  }

  /** With a null operand through the null block, without one straight on: either way to the join. */
  lemma ReachJoin(ctx: Context, a: Fn, d: Detour, s: State, t: State, x: bool) returns (u: State)
    requires Grown(a, d.base) && d.Built() && At(ctx, a, d.c, s, t) && Ev(t, d.Cond()) == Some(VBool(x))
    ensures d.c.cur < |d.c.blocks| && d.N < |d.c.blocks| && d.Join().regs == d.c.regs && d.c.cur != d.N
    ensures At(ctx, a, d.Join(), s, u) && Same(d.c.regs, t, u) && u.prev == if x then d.N else d.c.cur
  {
    hide Grows, Sub;
    DetourGrows(a, d);
    assert At(ctx, a, d.c, s, t);
    var z := d.Join().blocks;
    SubTrans(d.c.blocks, d.NullStart().blocks, z);
    ReachesSub(ctx, d.c.blocks, z, s, t);
    assert Path(ctx, a, z, s, t);
    assert d.c.Close(CondBr(d.Cond(), d.N, d.X)).blocks == d.NullStart().blocks;
    if x {
      PathJump(ctx, a, d.c, CondBr(d.Cond(), d.N, d.X), d.N, z, s, t);
      assert d.NullStart().Close(Br(d.X)).blocks == z;
      SubSelf(z);
      PathJump(ctx, a, d.NullStart(), Br(d.X), d.X, z, s, Enter(t, d.N));
      u := Enter(Enter(t, d.N), d.X);
    } else {
      PathJump(ctx, a, d.c, CondBr(d.Cond(), d.N, d.X), d.X, z, s, t);
      u := Enter(t, d.X);
    }
  }

  lemma SubSelf(z: seq<Block>)
    ensures Sub(z, z)
  {
  }

  lemma DoArith(ctx: Context, a: Fn, c: Fn, d: Fn, s: State, t: State, op: ArithOp, ty: Type, flag: nat, o: Operand,
                p: Operand, x: int, y: int)
    returns (u: State)
    requires At(ctx, a, c, s, t) && IsAdd(c, CallArithI(c.regs, op, ty, flag, o, p), d) && a.slots <= flag
    requires Ev(t, o) == Some(VInt(x)) && Ev(t, p) == Some(VInt(y)) && flag in t.slots && t.slots[flag] == VBool(false)
    ensures At(ctx, a, d, s, u) && forall q: Operand | Below(q, c.regs) :: Ev(u, q) == Ev(t, q)
    ensures Ev(u, Reg(c.regs)) == Some(VInt(ctx.kernels.arith(op, ty, x, y).0))
    ensures flag in u.slots && u.slots[flag] == VBool(TakesNullFlag(op) && ctx.kernels.arith(op, ty, x, y).1)
  {
    var (r, isNull) := ctx.kernels.arith(op, ty, x, y);
    u := Def(if TakesNullFlag(op) then Put(t, flag, VBool(isNull)) else t, c.regs, VInt(r));
    ArrivesIns(ctx, a, c, s, t, CallArithI(c.regs, op, ty, flag, o, p), 1, u);
  }

  /** The snapshots taken while an arithmetic operator is emitted. */
  datatype ArithCode = ArithCode(b: Fn, c1: Fn, c2: Fn, c3: Fn, d: Detour, m1: Fn, m2: Fn, e1: Fn, e2: Fn, e3: Fn,
      e: Fn) {
    ghost predicate Built(op: ArithOp, ty: Type, g: CodeGenValue, h: CodeGenValue, lz: Operand, rz: Operand) {
      && IsStore(b.NewSlots(1), b.slots, Const(VBool(false)), c1)
      && IsAdd(c1, OrI(c1.regs, g.isNull, h.isNull), c2)
      && IsAdd(c2, NotI(c2.regs, Reg(c1.regs)), c3)
      && d.base == c3 && d.ln == g.isNull && d.rn == h.isNull && d.Built()
      && d.c.cur < |d.c.blocks| && d.N < |d.c.blocks|
      && IsAdd(d.Join(), Phi(d, d.c.regs, lz, g.data), m1)
      && IsAdd(m1, Phi(d, m1.regs, rz, h.data), m2)
      && IsAdd(m2, CallArithI(m2.regs, op, ty, b.slots, Reg(d.c.regs), Reg(m1.regs)), e1)
      && IsAdd(e1, OrI(e1.regs, g.isNull, h.isNull), e2)
      && IsAdd(e2, LoadI(e2.regs, b.slots), e3)
      && IsAdd(e3, OrI(e3.regs, Reg(e1.regs), Reg(e2.regs)), e)
    }
  }

  /** What the kernel is fed on a null row: a constant, or the operand itself. */
  predicate Substitute(z: Operand, own: Operand) {
    z == own || (z.Const? && z.v.VInt?)
  }

  /** From the start of the operator to the null condition. */
  lemma ArithPrologue(ctx: Context, x: ArithCode, op: ArithOp, ty: Type, g: CodeGenValue, h: CodeGenValue, lz: Operand,
                      rz: Operand, s: State, n: bool, m: bool)
    returns (t: State)
    requires x.b.Open() && x.b.AtEnd(s) && Bounded(g, x.b.regs) && Bounded(h, x.b.regs) && x.Built(op, ty, g, h, lz, rz)
    requires Ev(s, g.isNull) == Some(VBool(n)) && Ev(s, h.isNull) == Some(VBool(m))
    ensures At(ctx, x.b, x.d.c, s, t) && x.b.slots in t.slots && t.slots[x.b.slots] == VBool(false)
    ensures Ev(t, x.d.Cond()) == Some(VBool(n || m)) && x.b.regs < x.d.c.regs
    ensures forall o: Operand | Below(o, x.b.regs) :: Ev(t, o) == Ev(s, o)
  {
    hide At, Fn.Open, Fn.Add, Fn.Ins, Detour.Join;
    var b := x.b;
    Ready(ctx, b, s);
    AtSlots(ctx, b, b, s, s, 1);
    t := DoStore(ctx, b, b.NewSlots(1), x.c1, s, s, b.slots, Const(VBool(false)), VBool(false));
    t := DoOr(ctx, b, x.c1, x.c2, s, t, g.isNull, h.isNull, n, m);
    t := DoNot(ctx, b, x.c2, x.c3, s, t, Reg(x.c1.regs), n || m);
    t := AtNewBlocks(ctx, b, x.c3, s, t);
    t := DoOr(ctx, b, x.c3.NewBlock().NewBlock(), x.d.c, s, t, g.isNull, h.isNull, n, m);
  }

  /** From the null condition to the phis. */
  lemma ArithToPhis(ctx: Context, x: ArithCode, op: ArithOp, ty: Type, g: CodeGenValue, h: CodeGenValue, lz: Operand,
                    rz: Operand, s: State, t: State,
      i: int, j: int, isNull: bool) returns (u: State, i': int, j': int)
    requires At(ctx, x.b, x.d.c, s, t) && Grown(x.b, x.c3) && x.Built(op, ty, g, h, lz, rz)
    requires Bounded(g, x.d.c.regs) && Bounded(h, x.d.c.regs) && Substitute(lz, g.data) && Substitute(rz, h.data)
    requires Ev(t, g.data) == Some(VInt(i)) && Ev(t, h.data) == Some(VInt(j)) &&
      Ev(t, x.d.Cond()) == Some(VBool(isNull))
    ensures At(ctx, x.b, x.m2, s, u) && u.slots == t.slots
    ensures forall o: Operand | Below(o, x.d.c.regs) :: Ev(u, o) == Ev(t, o)
    ensures Ev(u, Reg(x.d.c.regs)) == Some(VInt(i')) && Ev(u, Reg(x.m1.regs)) == Some(VInt(j'))
    ensures !isNull ==> i' == i && j' == j
  {
    hide At, Fn.Open, Fn.Add, Fn.Ins, Detour.Join, Grown;
    var b, d := x.b, x.d;
    u := ReachJoin(ctx, b, d, s, t, isNull);
    i' := if isNull then Ev(u, lz).value.i else i;
    j' := if isNull then Ev(u, rz).value.i else j;
    u := DoJoinPhi(ctx, b, d, d.Join(), x.m1, s, u, lz, g.data, VInt(i'));
    u := DoJoinPhi(ctx, b, d, x.m1, x.m2, s, u, rz, h.data, VInt(j'));
  }

  /** From the phis to the result. */
  lemma ArithEpilogue(ctx: Context, x: ArithCode, op: ArithOp, ty: Type, g: CodeGenValue, h: CodeGenValue, lz: Operand,
                      rz: Operand, s: State, t: State,
      i: int, j: int, n: bool, m: bool, k: Goal)
    requires At(ctx, x.b, x.m2, s, t) && x.Built(op, ty, g, h, lz, rz) && x.b.slots in t.slots &&
      t.slots[x.b.slots] == VBool(false)
    requires Bounded(g, x.m2.regs) && Bounded(h, x.m2.regs)
    requires Ev(t, g.isNull) == Some(VBool(n)) && Ev(t, h.isNull) == Some(VBool(m))
    requires Ev(t, Reg(x.d.c.regs)) == Some(VInt(i)) && Ev(t, Reg(x.m1.regs)) == Some(VInt(j)) &&
      x.d.c.regs < x.m2.regs && x.m1.regs < x.m2.regs
    requires IsInteger(k.t) && k.v == CodeGenValue(Reg(x.m2.regs), Reg(x.e3.regs), NO_LENGTH)
    requires var (r, isNull) := ctx.kernels.arith(op, ty, i, j);
      k.sem(ctx) == if n || m || (TakesNullFlag(op) && isNull) then Null else Value(VInt(r))
    ensures Delivers(ctx, x.b, x.e, [k], s)
  {
    hide At, Fn.Open, Fn.Add, Fn.Ins, Detour.Join, Delivers, Met;
    var (r, isNull) := ctx.kernels.arith(op, ty, i, j);
    var u := DoArith(ctx, x.b, x.m2, x.e1, s, t, op, ty, x.b.slots, Reg(x.d.c.regs), Reg(x.m1.regs), i, j);
    u := DoOr(ctx, x.b, x.e1, x.e2, s, u, g.isNull, h.isNull, n, m);
    u := DoLoad(ctx, x.b, x.e2, x.e3, s, u, x.b.slots, VBool(TakesNullFlag(op) && isNull));
    u := DoOr(ctx, x.b, x.e3, x.e, s, u, Reg(x.e1.regs), Reg(x.e2.regs), n || m, TakesNullFlag(op) && isNull);
    MetInt(ctx, k, u, r, n || m || (TakesNullFlag(op) && isNull));
    DeliversOne(ctx, x.b, x.e, k, s, u);
  }

  lemma ArithRow(ctx: Context, x: ArithCode, op: ArithOp, ty: Type, g: Goal, h: Goal, lz: Operand, rz: Operand, k: Goal,
                 s: State)
    requires x.b.Open() && x.b.AtEnd(s) && Bounded(g.v, x.b.regs) && Bounded(h.v, x.b.regs) && Grown(x.b, x.c3)
    requires x.Built(op, ty, g.v, h.v, lz, rz) && Substitute(lz, g.v.data) && Substitute(rz, h.v.data)
    requires Met(ctx, g, s) && Met(ctx, h, s) && IsInteger(g.t) && IsInteger(h.t)
    requires IsInteger(k.t) && k.v == CodeGenValue(Reg(x.m2.regs), Reg(x.e3.regs), NO_LENGTH)
    requires k.sem(ctx) == ArithSql(ctx.kernels, op, ty, g.sem(ctx), h.sem(ctx))
    ensures Delivers(ctx, x.b, x.e, [k], s)
  {
    hide At, Fn.Open, Fn.Add, Fn.Ins, Detour.Join, Delivers, Met, Grown, IsAdd;
    RegsUp(x, op, ty, g.v, h.v, lz, rz);
    var i, n := IntParts(ctx, g, s);
    var j, m := IntParts(ctx, h, s);
    var t := ArithPrologue(ctx, x, op, ty, g.v, h.v, lz, rz, s, n, m);
    var u, i', j' := ArithToPhis(ctx, x, op, ty, g.v, h.v, lz, rz, s, t, i, j, n || m);
    ArithEpilogue(ctx, x, op, ty, g.v, h.v, lz, rz, s, u, i', j', n, m, k);
  }

  lemma RegsUp(x: ArithCode, op: ArithOp, ty: Type, g: CodeGenValue, h: CodeGenValue, lz: Operand, rz: Operand)
    requires x.Built(op, ty, g, h, lz, rz)
    ensures x.b.regs < x.d.c.regs < x.m1.regs < x.m2.regs
  {
  }

  lemma ArithGrown(x: ArithCode, op: ArithOp, ty: Type, g: CodeGenValue, h: CodeGenValue, lz: Operand, rz: Operand)
    requires x.b.Open() && x.Built(op, ty, g, h, lz, rz)
    ensures Grown(x.b, x.c3) && Grown(x.b, x.e) && x.e.regs == x.e3.regs + 1 && x.m2.regs < x.e3.regs
  {
    hide Grown, Fn.Open, Fn.Add, Fn.Ins, Detour.Join;
    var b := x.b;
    GrownStart(b);
    GrownSlots(b, b, 1);
    GrownStore(b, b.NewSlots(1), b.slots, Const(VBool(false)), x.c1);
    GrownStep(b, x.c1, OrI(x.c1.regs, g.isNull, h.isNull), x.c2);
    GrownStep(b, x.c2, NotI(x.c2.regs, Reg(x.c1.regs)), x.c3);
    JoinShape(b, x.d, x.m1, x.m2, lz, g.data, rz, h.data);
    GrownStep(b, x.m2, CallArithI(x.m2.regs, op, ty, b.slots, Reg(x.d.c.regs), Reg(x.m1.regs)), x.e1);
    GrownStep(b, x.e1, OrI(x.e1.regs, g.isNull, h.isNull), x.e2);
    GrownStep(b, x.e2, LoadI(x.e2.regs, b.slots), x.e3);
    GrownStep(b, x.e3, OrI(x.e3.regs, Reg(x.e1.regs), Reg(x.e2.regs)), x.e);
  }

  /** Null if an operand is null or the kernel says so; otherwise the kernel's result on the real operands. */
  lemma ArithComputes(schema: seq<Type>, x: ArithCode, op: ArithOp, ty: Type, g: Goal, h: Goal, lz: Operand,
                      rz: Operand, k: Goal)
    requires x.b.Open() && BoundedAll([g, h], x.b.regs) && IsInteger(g.t) && IsInteger(h.t)
    requires x.Built(op, ty, g.v, h.v, lz, rz) && Substitute(lz, g.v.data) && Substitute(rz, h.v.data)
    requires IsInteger(k.t) && k.v == CodeGenValue(Reg(x.m2.regs), Reg(x.e3.regs), NO_LENGTH)
    requires forall ctx | ContextOk(ctx, schema) :: k.sem(ctx) == ArithSql(ctx.kernels, op, ty, g.sem(ctx), h.sem(ctx))
    ensures ComputesFrom(schema, x.b, x.e, [g, h], [k])
  {
    hide Met, Grown, Delivers, ArithCode.Built, Fn.Open;
    ArithGrown(x, op, ty, g.v, h.v, lz, rz);
    forall ctx, s | Starts(ctx, schema, x.b, s) && MetAll(ctx, [g, h], s) ensures Delivers(ctx, x.b, x.e, [k], s) {
      TwoMet(ctx, g, h, s, x.b.regs);
      ArithRow(ctx, x, op, ty, g, h, lz, rz, k, s);
    }
  }

  lemma AtNewBlocks(ctx: Context, a: Fn, c: Fn, s: State, t: State) returns (u: State)
    requires At(ctx, a, c, s, t)
    ensures At(ctx, a, c.NewBlock().NewBlock(), s, u) && u == t
  {
    u := t;
    var d := c.NewBlock().NewBlock();
    forall p: nat, k: nat ensures IsPred(d.blocks, p, k) <==> IsPred(c.blocks, p, k) {}
    ReachesSub(ctx, c.blocks, d.blocks, s, t);
  }
}
