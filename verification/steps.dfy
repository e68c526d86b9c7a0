/** One instruction at a time: how operands are read, and what appending and running an instruction does. Each lemma
    advances a run of code under construction by one instruction and says what its new register holds. */
module Steps {
  import opened SqlValues
  import opened Expressions
  import opened BlockIR
  import opened CodeShape
  import opened Translation

  // ---------- reading operands ----------

  lemma BoolParts(ctx: Context, g: Goal, s: State) returns (x: bool, n: bool)
    requires Met(ctx, g, s) && g.t == Boolean
    ensures Ev(s, g.v.data) == Some(VBool(x)) && Ev(s, g.v.isNull) == Some(VBool(n))
    ensures g.sem(ctx) == if n then Null else Value(VBool(x))
  {
    x, n := Ev(s, g.v.data).value.b, Ev(s, g.v.isNull).value.b;
  }

  lemma IntParts(ctx: Context, g: Goal, s: State) returns (x: int, n: bool)
    requires Met(ctx, g, s) && IsInteger(g.t)
    ensures Ev(s, g.v.data) == Some(VInt(x)) && Ev(s, g.v.isNull) == Some(VBool(n))
    ensures g.sem(ctx) == if n then Null else Value(VInt(x))
  {
    x, n := Ev(s, g.v.data).value.i, Ev(s, g.v.isNull).value.b;
  }

  lemma StrParts(ctx: Context, g: Goal, s: State) returns (p: string, l: int, n: bool)
    requires Met(ctx, g, s) && g.t == Varchar
    ensures Ev(s, g.v.data) == Some(VPtr(p)) && Ev(s, g.v.length) == Some(VInt(l)) &&
      Ev(s, g.v.isNull) == Some(VBool(n))
    ensures g.sem(ctx) == if n then Null else Value(VPtr(Content(VPtr(p), VInt(l))))
    ensures !n ==> 0 <= l == |Content(VPtr(p), VInt(l))|
  {
    p, l, n := Ev(s, g.v.data).value.bytes, Ev(s, g.v.length).value.i, Ev(s, g.v.isNull).value.b;
  }

  lemma NullPart(ctx: Context, g: Goal, s: State) returns (n: bool)
    requires Met(ctx, g, s)
    ensures Ev(s, g.v.isNull) == Some(VBool(n)) && n == g.sem(ctx).Null?
  {
    n := Ev(s, g.v.isNull).value.b;
  }

  lemma MetBool(ctx: Context, g: Goal, s: State, x: bool, n: bool)
    requires g.t == Boolean && g.v.length == NO_LENGTH
    requires Ev(s, g.v.data) == Some(VBool(x)) && Ev(s, g.v.isNull) == Some(VBool(n))
    requires g.sem(ctx) == if n then Null else Value(VBool(x))
    ensures Met(ctx, g, s)
  {
  }

  lemma MetInt(ctx: Context, g: Goal, s: State, x: int, n: bool)
    requires IsInteger(g.t) && g.v.length == NO_LENGTH
    requires Ev(s, g.v.data) == Some(VInt(x)) && Ev(s, g.v.isNull) == Some(VBool(n))
    requires g.sem(ctx) == if n then Null else Value(VInt(x))
    ensures Met(ctx, g, s)
  {
  }

  // ---------- single instructions ----------

  /** Every operand over earlier registers reads as before; so do the slots. */
  ghost predicate Keeps(n: nat, s: State, t: State) {
    && t.prev == s.prev && t.slots == s.slots
    && forall o: Operand | Below(o, n) :: Ev(t, o) == Ev(s, o)
  }

  /** Code under construction after `a`, for one run of it: at `c`, in state `t`. */
  ghost predicate At(ctx: Context, a: Fn, c: Fn, s: State, t: State) {
    Arrives(ctx, a, c, s, t) && c.Open() && a.regs <= c.regs && a.slots <= c.slots
  }

  /** `d` is `c` with one instruction that defines the next register. */
  ghost predicate IsAdd(c: Fn, i: Instr, d: Fn) {
    c.cur < |c.blocks| && d == c.Add(i) && d.regs == c.regs + 1 && d.slots == c.slots && d.cur == c.cur &&
      d.cur < |d.blocks|
  }

  /** `u` is `t` after an instruction gave the next register of `c` the value `v`. */
  ghost predicate Defined(c: Fn, t: State, u: State, v: Val) {
    Keeps(c.regs, t, u) && Ev(u, Reg(c.regs)) == Some(v)
  }

  lemma Do(ctx: Context, a: Fn, c: Fn, d: Fn, s: State, t: State, i: Instr, v: Val) returns (u: State)
    requires At(ctx, a, c, s, t) && IsAdd(c, i, d) && Exec(ctx, i, t) == Some(Def(t, c.regs, v))
    ensures At(ctx, a, d, s, u) && Defined(c, t, u, v) && d.regs == c.regs + 1 && d.slots == c.slots
  {
    u := Def(t, c.regs, v);
    ArrivesIns(ctx, a, c, s, t, i, 1, u);
  }

  lemma DoAnd(ctx: Context, a: Fn, c: Fn, d: Fn, s: State, t: State, o: Operand, p: Operand, x: bool, y: bool)
              returns (u: State)
    requires At(ctx, a, c, s, t) && IsAdd(c, AndI(c.regs, o, p), d)
    requires Ev(t, o) == Some(VBool(x)) && Ev(t, p) == Some(VBool(y))
    ensures At(ctx, a, d, s, u) && Defined(c, t, u, VBool(x && y)) && d.regs == c.regs + 1 && d.slots == c.slots
  {
    hide At, IsAdd;
    u := Do(ctx, a, c, d, s, t, AndI(c.regs, o, p), VBool(x && y));
  }

  lemma DoOr(ctx: Context, a: Fn, c: Fn, d: Fn, s: State, t: State, o: Operand, p: Operand, x: bool, y: bool)
             returns (u: State)
    requires At(ctx, a, c, s, t) && IsAdd(c, OrI(c.regs, o, p), d)
    requires Ev(t, o) == Some(VBool(x)) && Ev(t, p) == Some(VBool(y))
    ensures At(ctx, a, d, s, u) && Defined(c, t, u, VBool(x || y)) && d.regs == c.regs + 1 && d.slots == c.slots
  {
    hide At, IsAdd;
    u := Do(ctx, a, c, d, s, t, OrI(c.regs, o, p), VBool(x || y));
  }

  lemma DoNot(ctx: Context, a: Fn, c: Fn, d: Fn, s: State, t: State, o: Operand, x: bool) returns (u: State)
    requires At(ctx, a, c, s, t) && IsAdd(c, NotI(c.regs, o), d)
    requires Ev(t, o) == Some(VBool(x))
    ensures At(ctx, a, d, s, u) && Defined(c, t, u, VBool(!x)) && d.regs == c.regs + 1 && d.slots == c.slots
  {
    hide At, IsAdd;
    u := Do(ctx, a, c, d, s, t, NotI(c.regs, o), VBool(!x));
  }

  lemma DoCmp(ctx: Context, a: Fn, c: Fn, d: Fn, s: State, t: State, op: CmpOp, o: Operand, p: Operand, x: int, y: int)
              returns (u: State)
    requires At(ctx, a, c, s, t) && IsAdd(c, CmpI(c.regs, op, o, p), d)
    requires Ev(t, o) == Some(VInt(x)) && Ev(t, p) == Some(VInt(y))
    ensures At(ctx, a, d, s, u) && Defined(c, t, u, VBool(CompareInt(op, x, y))) && d.regs == c.regs + 1 &&
      d.slots == c.slots
  {
    hide At, IsAdd;
    u := Do(ctx, a, c, d, s, t, CmpI(c.regs, op, o, p), VBool(CompareInt(op, x, y)));
  }

  lemma DoCallCompare(ctx: Context, a: Fn, c: Fn, d: Fn, s: State, t: State, op: CmpOp, o: Operand, p: Operand, x: int,
                      y: int) returns (u: State)
    requires At(ctx, a, c, s, t) && IsAdd(c, CallCompareI(c.regs, op, o, p), d)
    requires Ev(t, o) == Some(VInt(x)) && Ev(t, p) == Some(VInt(y))
    ensures At(ctx, a, d, s, u) && Defined(c, t, u, VBool(CompareInt(op, x, y))) && d.regs == c.regs + 1 &&
      d.slots == c.slots
  {
    hide At, IsAdd;
    u := Do(ctx, a, c, d, s, t, CallCompareI(c.regs, op, o, p), VBool(CompareInt(op, x, y)));
  }

  lemma DoLoad(ctx: Context, a: Fn, c: Fn, d: Fn, s: State, t: State, x: nat, v: Val) returns (u: State)
    requires At(ctx, a, c, s, t) && IsAdd(c, LoadI(c.regs, x), d)
    requires x in t.slots && t.slots[x] == v
    ensures At(ctx, a, d, s, u) && Defined(c, t, u, v) && d.regs == c.regs + 1 && d.slots == c.slots
  {
    hide At, IsAdd;
    u := Do(ctx, a, c, d, s, t, LoadI(c.regs, x), v);
  }

  lemma DoStrCompare(ctx: Context, a: Fn, c: Fn, d: Fn, s: State, t: State, g: CodeGenValue, h: CodeGenValue, p: string,
                     l: int, q: string, m: int) returns (u: State)
    requires At(ctx, a, c, s, t) && IsAdd(c, CallStrCompareI(c.regs, g.data, g.length, h.data, h.length), d)
    requires Ev(t, g.data) == Some(VPtr(p)) && Ev(t, g.length) == Some(VInt(l)) && Ev(t, h.data) == Some(VPtr(q)) &&
      Ev(t, h.length) == Some(VInt(m))
    ensures At(ctx, a, d, s, u) && Defined(c, t, u, VInt(ctx.kernels.order(Content(VPtr(p), VInt(l)),
      Content(VPtr(q), VInt(m))))) && d.regs == c.regs + 1 && d.slots == c.slots
  {
    hide At, IsAdd;
    u := Do(ctx, a, c, d, s, t, CallStrCompareI(c.regs, g.data, g.length, h.data, h.length),
      VInt(ctx.kernels.order(Content(VPtr(p), VInt(l)), Content(VPtr(q), VInt(m)))));
  }

  /** `d` is `c` with a store to `x`. */
  ghost predicate IsStore(c: Fn, x: nat, o: Operand, d: Fn) {
    c.cur < |c.blocks| && d == c.Ins([StoreI(x, o)], 0) && d.regs == c.regs && d.slots == c.slots && d.cur == c.cur &&
      d.cur < |d.blocks|
  }

  lemma DoStore(ctx: Context, a: Fn, c: Fn, d: Fn, s: State, t: State, x: nat, o: Operand, v: Val) returns (u: State)
    requires At(ctx, a, c, s, t) && IsStore(c, x, o, d) && a.slots <= x && Ev(t, o) == Some(v)
    ensures At(ctx, a, d, s, u) && u == Put(t, x, v).(idx := t.idx + 1) && forall p: Operand :: Ev(u, p) == Ev(t, p)
  {
    u := Put(t, x, v).(idx := t.idx + 1);
    ArrivesIns(ctx, a, c, s, t, StoreI(x, o), 0, u);
  }

  lemma Ready(ctx: Context, a: Fn, s: State)
    requires a.Open() && a.AtEnd(s)
    ensures At(ctx, a, a, s, s) && a.cur < |a.blocks|
  {
    ArrivesSelf(ctx, a, s);
  }

  lemma DeliversOne(ctx: Context, a: Fn, c: Fn, g: Goal, s: State, t: State)
    requires At(ctx, a, c, s, t) && Met(ctx, g, t)
    ensures Delivers(ctx, a, c, [g], s)
  {
    assert MetAll(ctx, [g], t);
  }

  lemma GrownStep(a: Fn, c: Fn, i: Instr, d: Fn)
    requires Grown(a, c) && !i.PhiI? && IsAdd(c, i, d)
    ensures Grown(a, d)
  {
    GrownAdd(a, c, i, 1);
  }

  lemma GrownStore(a: Fn, c: Fn, x: nat, o: Operand, d: Fn)
    requires Grown(a, c) && IsStore(c, x, o, d)
    ensures Grown(a, d)
  {
    GrownAdd(a, c, StoreI(x, o), 0);
  }

  lemma GrownSlots(a: Fn, c: Fn, n: nat)
    requires Grown(a, c)
    ensures Grown(a, c.NewSlots(n))
  {
    GrowsNewSlots(a, c, {}, n);
  }

  lemma AtSlots(ctx: Context, a: Fn, c: Fn, s: State, t: State, n: nat)
    requires At(ctx, a, c, s, t)
    ensures At(ctx, a, c.NewSlots(n), s, t)
  {
  }

  lemma GrownStart(a: Fn)
    requires a.Open()
    ensures Grown(a, a) && a.cur < |a.blocks|
  {
    GrowsSelf(a);
  }

  /** The operands of a node with two children, ready for use. */
  lemma TwoMet(ctx: Context, g: Goal, h: Goal, s: State, n: nat)
    requires MetAll(ctx, [g, h], s) && BoundedAll([g, h], n)
    ensures Met(ctx, g, s) && Met(ctx, h, s) && Bounded(g.v, n) && Bounded(h.v, n)
  {
    assert [g, h][0] == g && [g, h][1] == h;
  }

  lemma OneMet(ctx: Context, g: Goal, s: State, n: nat)
    requires MetAll(ctx, [g], s) && BoundedAll([g], n)
    ensures Met(ctx, g, s) && Bounded(g.v, n)
  {
    assert [g][0] == g;
  }
}
