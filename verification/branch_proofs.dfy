/** The diamond: a conditional branch, two arms, and a merge block whose phis pick the arm that ran. */
module BranchProofs {
  import opened SqlValues
  import opened Expressions
  import opened BlockIR
  import opened CodeShape
  import opened Translation
  import opened Steps

  /** Which parts of a value get a phi besides the data. */
  datatype Parts = Parts(isNull: bool, length: bool)

  function Pairs(x: CodeGenValue, y: CodeGenValue, w: Parts): seq<(Operand, Operand)> {
    [(x.data, y.data)] + (if w.isNull then [(x.isNull, y.isNull)] else []) +
      (if w.length then [(x.length, y.length)] else [])
  }

  /** One phi per pair: the first operand from block `tb`, the second from `fb`. */
  function Phis(r: nat, tb: nat, fb: nat, ps: seq<(Operand, Operand)>): (phis: seq<Instr>)
    ensures |phis| == |ps|
  {
    seq(|ps|, i requires 0 <= i < |ps| => PhiI(r + i, [(tb, ps[i].0), (fb, ps[i].1)]))
  }

  /** A diamond under construction: the snapshots taken while it is built. */
  datatype Diamond = Diamond(base: Fn, cond: Operand, c: Fn, t1: Fn, f1: Fn) {
    const T := |base.blocks|
    const F := |base.blocks| + 1
    const M := |base.blocks| + 2

    /** The blocks are created before the condition is computed. */
    function Created(): Fn {
      base.NewBlock().NewBlock().NewBlock()
    }

    function TrueStart(): Fn
      requires c.cur < |c.blocks|
    {
      c.Close(CondBr(cond, T, F)).At(T)
    }

    function FalseStart(): Fn
      requires t1.cur < |t1.blocks|
    {
      t1.Close(Br(M)).At(F)
    }

    function MergeStart(): Fn
      requires f1.cur < |f1.blocks|
    {
      f1.Close(Br(M)).At(M)
    }

    /** The finished diamond with its phis. */
    function Done(x: CodeGenValue, y: CodeGenValue, w: Parts): Fn
      requires f1.cur < |f1.blocks| && M < |f1.blocks|
    {
      MergeStart().Ins(Phis(f1.regs, t1.cur, f1.cur, Pairs(x, y, w)), |Pairs(x, y, w)|)
    }

    ghost predicate Built() {
      && base.Open()
      && Grown(Created(), c) && c.cur < |c.blocks|
      && Grown(TrueStart(), t1) && t1.cur < |t1.blocks|
      && Grown(FalseStart(), f1)
    }
  }

  lemma CreatedGrows(d: Diamond)
    requires d.base.Open()
    ensures Grows(d.base, d.Created(), {d.T, d.F, d.M})
  {
    hide Grows, Fn.Open;
    var b := d.base;
    GrowsSelf(b);
    GrowsNewBlock(b, b, {});
    GrowsNewBlock(b, b.NewBlock(), {} + {d.T});
    GrowsNewBlock(b, b.NewBlock().NewBlock(), {} + {d.T} + {d.F});
    assert {} + {d.T} + {d.F} + {d.M} == {d.T, d.F, d.M};
  }

  lemma TrueArmGrows(d: Diamond)
    requires d.base.Open() && Grown(d.Created(), d.c) && d.c.cur < |d.c.blocks| && Grown(d.TrueStart(), d.t1)
    ensures d.t1.cur < |d.t1.blocks| && Grows(d.base, d.t1, {d.F, d.M})
    ensures Sub(d.c.blocks, d.TrueStart().blocks) && Sub(d.TrueStart().blocks, d.t1.blocks)
  {
    hide Grows, Fn.Open, Fn.Close, Sub;
    CreatedGrows(d);
    assert {d.T, d.F, d.M} - {d.T} == {d.F, d.M};
    GrowsThen(d.base, d.Created(), d.c, {d.T, d.F, d.M});
    GrowsJump(d.base, d.c, {d.T, d.F, d.M}, CondBr(d.cond, d.T, d.F), d.T);
    GrowsThen(d.base, d.TrueStart(), d.t1, {d.F, d.M});
  }

  /** Up to the merge block, the only thing missing is its phis. */
  lemma ArmsGrow(d: Diamond)
    requires d.Built()
    ensures d.c.cur < |d.c.blocks| && d.t1.cur < |d.t1.blocks| && d.f1.cur < |d.f1.blocks|
    ensures Grown(d.base, d.MergeStart()) && d.M < |d.MergeStart().blocks| && d.MergeStart().blocks[d.M].instrs == []
    ensures Sub(d.c.blocks, d.TrueStart().blocks) && Sub(d.TrueStart().blocks, d.t1.blocks)
    ensures Sub(d.t1.blocks, d.FalseStart().blocks) && Sub(d.FalseStart().blocks, d.f1.blocks)
    ensures Sub(d.f1.blocks, d.MergeStart().blocks)
  {
    hide Grows, Fn.Open, Fn.Close, Sub;
    TrueArmGrows(d);
    assert {d.F, d.M} - {d.F} == {d.M} && {d.M} - {d.M} == {};
    GrowsJump(d.base, d.t1, {d.F, d.M}, Br(d.M), d.F);
    GrowsThen(d.base, d.FalseStart(), d.f1, {d.M});
    GrowsJump(d.base, d.f1, {d.M}, Br(d.M), d.M);
  }

  /** The two arm ends are distinct and are the merge block's only predecessors. */
  lemma MergePreds(d: Diamond)
    requires d.Built() && d.c.cur < |d.c.blocks| && d.t1.cur < |d.t1.blocks| && d.f1.cur < |d.f1.blocks|
    ensures PredsAre(d.MergeStart().blocks, d.M, {d.t1.cur, d.f1.cur}) && d.t1.cur != d.f1.cur
  {
    var a := d.Created();
    forall p: nat ensures !IsPred(a.blocks, p, d.M) {
      assert IsPred(a.blocks, p, d.M) ==> IsPred(d.base.blocks, p, d.M);
    }
    assert PredsAre(a.blocks, d.M, {});
    assert |a.blocks| == d.M + 1 && a.Open();
    MergePredsRest(d);
  }

  lemma MergePredsRest(d: Diamond)
    requires d.Built() && d.c.cur < |d.c.blocks| && d.t1.cur < |d.t1.blocks| && d.f1.cur < |d.f1.blocks|
    requires PredsAre(d.Created().blocks, d.M, {}) && |d.Created().blocks| == d.M + 1
    ensures PredsAre(d.MergeStart().blocks, d.M, {d.t1.cur, d.f1.cur}) && d.t1.cur != d.f1.cur
  {
    hide PredsAre, Grown, Fn.Open;
    EndOf(d.Created(), d.c);
    EndOf(d.TrueStart(), d.t1);
    EndOf(d.FalseStart(), d.f1);
    assert {} + {d.t1.cur} + {d.f1.cur} == {d.t1.cur, d.f1.cur};
    PredsGrown(d.Created(), d.c, d.M, {});
    PredsClose(d.c, d.M, {}, CondBr(d.cond, d.T, d.F), d.T);
    PredsGrown(d.TrueStart(), d.t1, d.M, {});
    PredsClose(d.t1, d.M, {}, Br(d.M), d.F);
    PredsGrown(d.FalseStart(), d.f1, d.M, {} + {d.t1.cur});
    PredsClose(d.f1, d.M, {} + {d.t1.cur}, Br(d.M), d.M);
  }

  lemma EndOf(a: Fn, b: Fn)
    requires Grown(a, b)
    ensures b.Open() && (b.cur == a.cur || |a.blocks| <= b.cur) && b.cur < |b.blocks| && |a.blocks| <= |b.blocks|
  {
  }

  lemma PhisPick(d: Diamond, blocks: seq<Block>, ps: seq<(Operand, Operand)>)
    requires PredsAre(blocks, d.M, {d.t1.cur, d.f1.cur}) && d.t1.cur != d.f1.cur
    ensures forall i | 0 <= i < |ps| ::
      var phi := Phis(d.f1.regs, d.t1.cur, d.f1.cur, ps)[i]; phi.PhiI? && PhiOk(blocks, d.M, phi.incoming)
  {
    forall i | 0 <= i < |ps|
      ensures var phi := Phis(d.f1.regs, d.t1.cur, d.f1.cur, ps)[i]; phi.PhiI? && PhiOk(blocks, d.M, phi.incoming)
    {
      var inc := Phis(d.f1.regs, d.t1.cur, d.f1.cur, ps)[i].incoming;
      assert inc[0].0 == d.t1.cur && inc[1].0 == d.f1.cur && |inc| == 2;
    }
  }

  lemma DiamondShape(d: Diamond, x: CodeGenValue, y: CodeGenValue, w: Parts)
    requires d.Built()
    ensures d.c.cur < |d.c.blocks| && d.t1.cur < |d.t1.blocks| && d.f1.cur < |d.f1.blocks| && d.M < |d.f1.blocks|
    ensures d.MergeStart().blocks[d.M].instrs == [] && d.t1.cur != d.f1.cur && d.MergeStart().Open()
    ensures Grown(d.base, d.Done(x, y, w)) && Sub(d.MergeStart().blocks, d.Done(x, y, w).blocks)
  {
    ArmsGrow(d);
    MergePreds(d);
    var m0 := d.MergeStart();
    EndOf(d.base, m0);
    var phis := Phis(d.f1.regs, d.t1.cur, d.f1.cur, Pairs(x, y, w));
    PhisPick(d, m0.blocks, Pairs(x, y, w));
    assert |d.base.blocks| <= m0.cur;
    hide Grows, Sub, Fn.Open, Fn.Close, PhiOk, Phis, PredsAre;
    GrowsPhis(d.base, m0, {}, phis, |Pairs(x, y, w)|);
  }

  lemma DiamondSubs(d: Diamond, z: seq<Block>)
    requires d.Built() && d.f1.cur < |d.f1.blocks| && Sub(d.MergeStart().blocks, z)
    ensures d.c.cur < |d.c.blocks| && d.t1.cur < |d.t1.blocks|
    ensures Sub(d.TrueStart().blocks, z) && Sub(d.FalseStart().blocks, z)
    ensures Sub(d.t1.blocks, z) && Sub(d.f1.blocks, z) && Sub(d.c.blocks, z)
  {
    hide Grows, Grown, Sub, Fn.Open, Fn.Close;
    ArmsGrow(d);
    SubTrans(d.f1.blocks, d.MergeStart().blocks, z);
    SubTrans(d.FalseStart().blocks, d.f1.blocks, z);
    SubTrans(d.t1.blocks, d.FalseStart().blocks, z);
    SubTrans(d.TrueStart().blocks, d.t1.blocks, z);
    SubTrans(d.c.blocks, d.TrueStart().blocks, z);
  }

  // ---------- running a diamond ----------

  lemma DoPhi(ctx: Context, m: Fn, c: Fn, d: Fn, s: State, t: State, tb: nat, fb: nat, o: Operand, p: Operand, v: Val)
              returns (u: State)
    requires At(ctx, m, c, s, t) && IsAdd(c, PhiI(c.regs, [(tb, o), (fb, p)]), d)
    requires tb != fb && (t.prev == tb || t.prev == fb) && Ev(t, if t.prev == tb then o else p) == Some(v)
    ensures At(ctx, m, d, s, u) && Defined(c, t, u, v)
  {
    hide At, IsAdd;
    var inc := [(tb, o), (fb, p)];
    assert inc[1..] == [(fb, p)];
    assert Incoming(inc, t.prev) == Some(if t.prev == tb then o else p);
    u := Do(ctx, m, c, d, s, t, PhiI(c.regs, inc), v);
  }

  function Taken(p: (Operand, Operand), first: bool): Operand {
    if first then p.0 else p.1
  }

  /** The phis hand on what the arm that ran computed. */
  lemma {:induction false} MergeRuns(ctx: Context, m: Fn, t: State, tb: nat, fb: nat, ps: seq<(Operand, Operand)>)
                                     returns (u: State)
    requires m.Open() && m.AtEnd(t) && tb != fb && (t.prev == tb || t.prev == fb)
    requires forall i | 0 <= i < |ps| ::
      Below(ps[i].0, m.regs) && Below(ps[i].1, m.regs) && Ev(t, Taken(ps[i], t.prev == tb)).Some?
    ensures At(ctx, m, m.Ins(Phis(m.regs, tb, fb, ps), |ps|), t, u) && Keeps(m.regs, t, u)
    ensures forall i | 0 <= i < |ps| :: Ev(u, Reg(m.regs + i)) == Ev(t, Taken(ps[i], t.prev == tb))
    decreases |ps|
  {
    if |ps| == 0 {
      Ready(ctx, m, t);
      u := t;
      assert m.blocks[m.cur].instrs + [] == m.blocks[m.cur].instrs;
      assert m.Ins(Phis(m.regs, tb, fb, ps), 0).blocks == m.blocks;
    } else {
      var n := |ps| - 1;
      u := MergeRuns(ctx, m, t, tb, fb, ps[..n]);
      var c := m.Ins(Phis(m.regs, tb, fb, ps[..n]), n);
      var phi := PhiI(c.regs, [(tb, ps[n].0), (fb, ps[n].1)]);
      InsIns(m, Phis(m.regs, tb, fb, ps[..n]), n, [phi], 1);
      assert Phis(m.regs, tb, fb, ps) == Phis(m.regs, tb, fb, ps[..n]) + [phi];
      var was := u;
      hide At, Fn.Open, Phis;
      u := DoPhi(ctx, m, c, c.Add(phi), t, was, tb, fb, ps[n].0, ps[n].1, Ev(t, Taken(ps[n], t.prev == tb)).value);
      forall i | 0 <= i < |ps| ensures Ev(u, Reg(m.regs + i)) == Ev(t, Taken(ps[i], t.prev == tb)) {
        if i < n {
          assert Below(Reg(m.regs + i), c.regs) && ps[..n][i] == ps[i];
        }
      }
    }
  }

  function Otherwise(p: Context -> bool): Context -> bool {
    ctx => !p(ctx)
  }

  /** What the pieces of a diamond must do: compute `mid`, branch on `pick`, compute `x` or `y` knowing which way it
      went. */
  ghost predicate DiamondParts(schema: seq<Type>, d: Diamond, pre: seq<Goal>, mid: seq<Goal>, pick: Context -> bool,
                               x: Goal, y: Goal) {
    && d.base.Open()
    && ComputesFrom(schema, d.Created(), d.c, pre, mid)
    && ComputesFrom(schema, d.TrueStart(), d.t1, mid + [Assume(pick)], [x])
    && ComputesFrom(schema, d.FalseStart(), d.f1, mid + [Assume(Otherwise(pick))], [y])
    && forall ctx, s | ContextOk(ctx, schema) && MetAll(ctx, mid, s) :: Ev(s, d.cond) == Some(VBool(pick(ctx)))
  }

  /** The merged value: a part without a phi is the same constant in both arms. */
  ghost predicate MergedValue(d: Diamond, x: Goal, y: Goal, w: Parts, k: Goal) {
    && x.t == y.t == k.t && (k.t == Varchar ==> w.length)
    && k.v.data == Reg(d.f1.regs)
    && (if w.isNull then k.v.isNull == Reg(d.f1.regs + 1)
        else k.v.isNull == x.v.isNull == y.v.isNull && k.v.isNull.Const?)
    && (if w.length then k.v.length == Reg(d.f1.regs + if w.isNull then 2 else 1) else k.v.length == NO_LENGTH)
  }

  lemma MergedMet(ctx: Context, g: Goal, w: Parts, k: Goal, t: State, u: State)
    requires Met(ctx, g, t) && g.t == k.t && (k.t == Varchar ==> w.length)
    requires Ev(u, k.v.data) == Ev(t, g.v.data)
    requires Ev(u, k.v.isNull) == Ev(t, g.v.isNull)
    requires if w.length then Ev(u, k.v.length) == Ev(t, g.v.length) else k.v.length == NO_LENGTH
    requires k.sem(ctx) == g.sem(ctx)
    ensures Met(ctx, k, u)
  {
  }

  /** In the merge block, the merged value is the value of the arm that ran. */
  lemma MergeMeets(ctx: Context, d: Diamond, m: Fn, x: Goal, y: Goal, w: Parts, k: Goal, t: State, taken: bool)
                   returns (u: State)
    requires m.Open() && m.AtEnd(t) && m.regs == d.f1.regs && d.t1.cur != d.f1.cur && MergedValue(d, x, y, w, k)
    requires Bounded(x.v, m.regs) && Bounded(y.v, m.regs)
    requires t.prev == (if taken then d.t1.cur else d.f1.cur) && Met(ctx, if taken then x else y, t)
    requires k.sem(ctx) == (if taken then x else y).sem(ctx)
    ensures At(ctx, m, m.Ins(Phis(m.regs, d.t1.cur, d.f1.cur, Pairs(x.v, y.v, w)), |Pairs(x.v, y.v, w)|), t, u) &&
      Met(ctx, k, u)
  {
    hide At, Fn.Open, Fn.Ins, Phis, Fn.AtEnd;
    var ps := Pairs(x.v, y.v, w);
    assert ps[0] == (x.v.data, y.v.data);
    assert w.isNull ==> ps[1] == (x.v.isNull, y.v.isNull);
    assert w.length ==> ps[if w.isNull then 2 else 1] == (x.v.length, y.v.length);
    u := MergeRuns(ctx, m, t, d.t1.cur, d.f1.cur, ps);
    assert Ev(u, Reg(m.regs + 0)) == Ev(t, Taken(ps[0], taken));
    MergedMet(ctx, if taken then x else y, w, k, t, u);
  }

  /** From an arm's end through the merge. */
  lemma ArmMerges(ctx: Context, d: Diamond, x: Goal, y: Goal, w: Parts, k: Goal, s: State, t: State, taken: bool)
    requires d.Built() && MergedValue(d, x, y, w, k) && d.f1.cur < |d.f1.blocks| && d.M < |d.f1.blocks| &&
      d.t1.cur != d.f1.cur
    requires d.MergeStart().Open() && d.MergeStart().blocks[d.M].instrs == [] && d.base.regs <= d.f1.regs &&
      d.base.slots <= d.f1.slots
    requires Bounded(x.v, d.f1.regs) && Bounded(y.v, d.f1.regs)
    requires Path(ctx, d.base, d.Done(x.v, y.v, w).blocks, s, t) && t.block == d.M && t.idx == 0
    requires t.prev == (if taken then d.t1.cur else d.f1.cur) && Met(ctx, if taken then x else y, t)
    requires k.sem(ctx) == (if taken then x else y).sem(ctx)
    ensures Delivers(ctx, d.base, d.Done(x.v, y.v, w), [k], s)
  {
    hide MergedValue, Fn.Ins, Phis, Met;
    var m := d.MergeStart();
    var z := d.Done(x.v, y.v, w);
    var u := MergeMeets(ctx, d, m, x, y, w, k, t, taken);
    PathArrives(ctx, d.base, m, z, z.blocks, s, t, u);
    assert MetAll(ctx, [k], u);
  }

  lemma StartsPath(ctx: Context, schema: seq<Type>, d: Diamond, pre: seq<Goal>, mid: seq<Goal>, z: seq<Block>, s: State)
                   returns (t: State)
    requires Starts(ctx, schema, d.base, s) && MetAll(ctx, pre, s)
    requires ComputesFrom(schema, d.Created(), d.c, pre, mid) && Sub(d.c.blocks, z)
    ensures Path(ctx, d.base, z, s, t) && d.c.AtEnd(t) && MetAll(ctx, mid, t) && BoundedAll(mid, d.c.regs)
    ensures d.base.regs <= d.c.regs && d.base.slots <= d.c.slots
  {
    PathSelf(ctx, d.base, z, s);
    t := PathVisit(ctx, schema, d.base, d.Created(), d.c, pre, mid, z, s, s);
  }

  lemma EnterMet(ctx: Context, gs: seq<Goal>, t: State, target: nat)
    requires MetAll(ctx, gs, t)
    ensures MetAll(ctx, gs, Enter(t, target))
  {
    forall i | 0 <= i < |gs| ensures Met(ctx, gs[i], Enter(t, target)) {
      assert Met(ctx, gs[i], t);
    }
  }

  lemma EnterKnowing(ctx: Context, gs: seq<Goal>, t: State, target: nat, p: Context -> bool)
    requires MetAll(ctx, gs, t) && p(ctx)
    ensures MetAll(ctx, gs + [Assume(p)], Enter(t, target))
  {
    EnterMet(ctx, gs, t, target);
    AssumeMet(ctx, p, Enter(t, target));
  }

  lemma TrueRow(ctx: Context, schema: seq<Type>, d: Diamond, pre: seq<Goal>, mid: seq<Goal>, pick: Context -> bool,
                x: Goal, y: Goal, w: Parts, k: Goal, s: State)
    requires DiamondParts(schema, d, pre, mid, pick, x, y) && MergedValue(d, x, y, w, k)
    requires Starts(ctx, schema, d.base, s) && MetAll(ctx, pre, s) && pick(ctx) && k.sem(ctx) == x.sem(ctx)
    ensures d.f1.cur < |d.f1.blocks| && d.M < |d.f1.blocks|
    ensures Delivers(ctx, d.base, d.Done(x.v, y.v, w), [k], s)
  {
    hide Grown, Sub, Fn.Open, MetAll, Delivers, Diamond.Done, Diamond.Created;
    Regs(schema, d, pre, mid, pick, x, y);
    DiamondShape(d, x.v, y.v, w);
    var z := d.Done(x.v, y.v, w).blocks;
    DiamondSubs(d, z);
    StartBlocks(d);
    var t := StartsPath(ctx, schema, d, pre, mid, z, s);
    PathJump(ctx, d.base, d.c, CondBr(d.cond, d.T, d.F), d.T, z, s, t);
    EnterKnowing(ctx, mid, t, d.T, pick);
    var u := PathVisit(ctx, schema, d.base, d.TrueStart(), d.t1, mid + [Assume(pick)], [x], z, s, Enter(t, d.T));
    PathJump(ctx, d.base, d.t1, Br(d.M), d.M, z, s, u);
    EnterMet(ctx, [x], u, d.M);
    OneMet'(ctx, x, Enter(u, d.M));
    ArmMerges(ctx, d, x, y, w, k, s, Enter(u, d.M), true);
  }

  lemma FalseRow(ctx: Context, schema: seq<Type>, d: Diamond, pre: seq<Goal>, mid: seq<Goal>, pick: Context -> bool,
                 x: Goal, y: Goal, w: Parts, k: Goal, s: State)
    requires DiamondParts(schema, d, pre, mid, pick, x, y) && MergedValue(d, x, y, w, k)
    requires Starts(ctx, schema, d.base, s) && MetAll(ctx, pre, s) && !pick(ctx) && k.sem(ctx) == y.sem(ctx)
    ensures d.f1.cur < |d.f1.blocks| && d.M < |d.f1.blocks|
    ensures Delivers(ctx, d.base, d.Done(x.v, y.v, w), [k], s)
  {
    hide Grown, Sub, Fn.Open, MetAll, Delivers, Diamond.Done, Diamond.Created;
    Regs(schema, d, pre, mid, pick, x, y);
    DiamondShape(d, x.v, y.v, w);
    var z := d.Done(x.v, y.v, w).blocks;
    DiamondSubs(d, z);
    StartBlocks(d);
    var t := StartsPath(ctx, schema, d, pre, mid, z, s);
    PathJump(ctx, d.base, d.c, CondBr(d.cond, d.T, d.F), d.F, z, s, t);
    EnterKnowing(ctx, mid, t, d.F, Otherwise(pick));
    var u := PathVisit(ctx, schema, d.base, d.FalseStart(), d.f1, mid + [Assume(Otherwise(pick))], [y], z, s,
      Enter(t, d.F));
    PathJump(ctx, d.base, d.f1, Br(d.M), d.M, z, s, u);
    EnterMet(ctx, [y], u, d.M);
    OneMet'(ctx, y, Enter(u, d.M));
    ArmMerges(ctx, d, x, y, w, k, s, Enter(u, d.M), false);
  }

  lemma OneMet'(ctx: Context, g: Goal, s: State)
    requires MetAll(ctx, [g], s)
    ensures Met(ctx, g, s)
  {
    assert [g][0] == g;
  }

  /** Each arm starts in an empty block. */
  lemma StartBlocks(d: Diamond)
    requires d.Built()
    ensures d.c.cur < |d.c.blocks| && d.t1.cur < |d.t1.blocks|
    ensures d.T < |d.TrueStart().blocks| && d.TrueStart().blocks[d.T].instrs == [] && d.TrueStart().Open()
    ensures d.F < |d.FalseStart().blocks| && d.FalseStart().blocks[d.F].instrs == [] && d.FalseStart().Open()
  {
    TrueArmGrows(d);
    CreatedGrows(d);
    GrowsThen(d.base, d.Created(), d.c, {d.T, d.F, d.M});
  }

  lemma Regs(schema: seq<Type>, d: Diamond, pre: seq<Goal>, mid: seq<Goal>, pick: Context -> bool, x: Goal, y: Goal)
    requires DiamondParts(schema, d, pre, mid, pick, x, y)
    ensures d.Built() && d.base.regs <= d.c.regs <= d.t1.regs <= d.f1.regs &&
      d.base.slots <= d.c.slots <= d.t1.slots <= d.f1.slots
    ensures Bounded(x.v, d.f1.regs) && Bounded(y.v, d.f1.regs)
  {
    assert Bounded([x][0].v, d.t1.regs) && Bounded([y][0].v, d.f1.regs);
  }

  /** A diamond computes whichever arm the condition picks. */
  lemma DiamondComputes(schema: seq<Type>, d: Diamond, pre: seq<Goal>, mid: seq<Goal>, pick: Context -> bool, x: Goal,
                        y: Goal, w: Parts, k: Goal)
    requires DiamondParts(schema, d, pre, mid, pick, x, y) && MergedValue(d, x, y, w, k)
    requires forall ctx | ContextOk(ctx, schema) :: k.sem(ctx) == if pick(ctx) then x.sem(ctx) else y.sem(ctx)
    ensures d.f1.cur < |d.f1.blocks| && d.M < |d.f1.blocks|
    ensures ComputesFrom(schema, d.base, d.Done(x.v, y.v, w), pre, [k])
  {
    hide Delivers, Grown;
    Regs(schema, d, pre, mid, pick, x, y);
    DiamondShape(d, x.v, y.v, w);
    forall ctx, s | Starts(ctx, schema, d.base, s) && MetAll(ctx, pre, s)
      ensures Delivers(ctx, d.base, d.Done(x.v, y.v, w), [k], s)
    {
      if pick(ctx) {
        TrueRow(ctx, schema, d, pre, mid, pick, x, y, w, k, s);
      } else {
        FalseRow(ctx, schema, d, pre, mid, pick, x, y, w, k, s);
      }
    }
  }

  // ---------- building a merge ----------

  /** One more phi. */
  lemma PhiAppended(m: Fn, c: Fn, d: Fn, tb: nat, fb: nat, ps: seq<(Operand, Operand)>, p: (Operand, Operand))
    requires m.cur < |m.blocks| && c == m.Ins(Phis(m.regs, tb, fb, ps), |ps|) &&
      IsAdd(c, PhiI(c.regs, [(tb, p.0), (fb, p.1)]), d)
    ensures d == m.Ins(Phis(m.regs, tb, fb, ps + [p]), |ps| + 1)
  {
    InsIns(m, Phis(m.regs, tb, fb, ps), |ps|, [PhiI(c.regs, [(tb, p.0), (fb, p.1)])], 1);
    assert Phis(m.regs, tb, fb, ps + [p]) == Phis(m.regs, tb, fb, ps) + [PhiI(c.regs, [(tb, p.0), (fb, p.1)])];
  }

  lemma NoPhis(m: Fn, tb: nat, fb: nat)
    requires m.cur < |m.blocks|
    ensures m.Ins(Phis(m.regs, tb, fb, []), 0) == m
  {
    assert m.blocks[m.cur].instrs + [] == m.blocks[m.cur].instrs;
    assert m.Ins(Phis(m.regs, tb, fb, []), 0).blocks == m.blocks;
  }

  lemma BlocksCreated(a: Fn)
    requires a.Open()
    ensures a.NewBlock().NewBlock().NewBlock().Open() && a.cur < |a.blocks|
  {
    CreatedGrows(Diamond(a, Const(VInt(0)), a, a, a));
  }

  /** The first arm may be built. */
  lemma FirstArmOpen(a: Fn, c: Fn, cond: Operand)
    requires a.Open() && Grown(a.NewBlock().NewBlock().NewBlock(), c)
    ensures c.cur < |c.blocks| && c.Close(CondBr(cond, |a.blocks|, |a.blocks| + 1)).At(|a.blocks|).Open()
  {
    var d := Diamond(a, cond, c, c, c);
    CreatedGrows(d);
    GrowsThen(a, d.Created(), c, {d.T, d.F, d.M});
    GrowsJump(a, c, {d.T, d.F, d.M}, CondBr(cond, d.T, d.F), d.T);
  }

  /** The second arm may be built. */
  lemma SecondArmOpen(a: Fn, c: Fn, cond: Operand, t1: Fn)
    requires a.Open() && Grown(a.NewBlock().NewBlock().NewBlock(), c) && c.cur < |c.blocks|
    requires Grown(c.Close(CondBr(cond, |a.blocks|, |a.blocks| + 1)).At(|a.blocks|), t1)
    ensures t1.cur < |t1.blocks| && t1.Close(Br(|a.blocks| + 2)).At(|a.blocks| + 1).Open()
  {
    var d := Diamond(a, cond, c, t1, t1);
    TrueArmGrows(d);
    assert {d.T, d.F, d.M} - {d.T} == {d.F, d.M};
    GrowsJump(a, t1, {d.F, d.M}, Br(d.M), d.F);
  }
}
