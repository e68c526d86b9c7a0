/** CASE: a chain of condition blocks, each with a block that stores its result; the merge block loads it. */
module SwitchProofs {
  import opened SqlValues
  import opened Expressions
  import opened BlockIR
  import opened CodeShape
  import opened Translation
  import opened Steps
  import opened StringEqualProofs
  import opened ChoiceProofs
  import opened InProofs

  /** The stores of a result into the slots from `low` on. */
  ghost predicate StoreCode(b: Fn, t1: Fn, t2: Fn, c: Fn, low: nat, ty: Type, v: CodeGenValue) {
    && IsStore(b, low, v.data, t1) && IsStore(t1, low + 1, v.isNull, t2)
    && if ty == Varchar then IsStore(t2, low + 2, v.length, c) else c == t2
  }

  /** The slots from `low` on hold a result. */
  ghost predicate Stored(t: State, low: nat, ty: Type, sql: Sql) {
    && low in t.slots && low + 1 in t.slots && (ty == Varchar ==> low + 2 in t.slots) && t.slots[low + 1].VBool?
    && var a := Arg(t.slots[low], if ty == Varchar then t.slots[low + 2] else VInt(0), t.slots[low + 1].b);
       ArgOk(ty, a) && SqlOf(ty, a) == sql
  }

  lemma StoreGrows(a: Fn, b: Fn, t1: Fn, t2: Fn, c: Fn, low: nat, ty: Type, v: CodeGenValue, pend: set<nat>)
    requires Grows(a, b, pend) && StoreCode(b, t1, t2, c, low, ty, v)
    ensures Grows(a, c, pend) && Sub(b.blocks, c.blocks) && c.Open() && c.regs == b.regs && c.slots == b.slots
  {
    hide Sub, Fn.Open;
    GrowsIns(a, b, pend, [StoreI(low, v.data)], 0);
    GrowsIns(a, t1, pend, [StoreI(low + 1, v.isNull)], 0);
    SubTrans(b.blocks, t1.blocks, t2.blocks);
    if ty == Varchar {
      GrowsIns(a, t2, pend, [StoreI(low + 2, v.length)], 0);
      SubTrans(b.blocks, t2.blocks, c.blocks);
    }
    GrowsOpen(a, c, pend);
  }

  lemma GrowsOpen(a: Fn, b: Fn, pend: set<nat>)
    requires Grows(a, b, pend)
    ensures b.Open()
  {
  }

  /** A value is stored. */
  lemma StoreRuns(ctx: Context, b: Fn, t1: Fn, t2: Fn, c: Fn, low: nat, g: Goal, t: State) returns (u: State)
    requires b.Open() && b.AtEnd(t) && low + 2 < b.slots && StoreCode(b, t1, t2, c, low, g.t, g.v) && Met(ctx, g, t)
    ensures At(ctx, FreeSlots(b, low), c, t, u) && Stored(u, low, g.t, g.sem(ctx))
  {
    var x := ArgAt(g.v, t).value;
    assert ArgOk(g.t, x) && SqlOf(g.t, x) == g.sem(ctx);
    u := StoreBody(ctx, b, t1, t2, c, low, g.t, g.v, t, x);
    var len := if g.t == Varchar then x.len else VInt(0);
    assert ArgOk(g.t, Arg(x.data, len, x.isNull)) && SqlOf(g.t, Arg(x.data, len, x.isNull)) == g.sem(ctx);
  }

  lemma StoreBody(ctx: Context, b: Fn, t1: Fn, t2: Fn, c: Fn, low: nat, ty: Type, v: CodeGenValue, t: State, x: Arg)
                  returns (u: State)
    requires b.Open() && b.AtEnd(t) && low + 2 < b.slots && StoreCode(b, t1, t2, c, low, ty, v) &&
      ArgAt(v, t) == Some(x)
    ensures At(ctx, FreeSlots(b, low), c, t, u)
    ensures low in u.slots && u.slots[low] == x.data && low + 1 in u.slots && u.slots[low + 1] == VBool(x.isNull)
    ensures ty == Varchar ==> low + 2 in u.slots && u.slots[low + 2] == x.len
  {
    hide At, Fn.Open, Fn.Ins;
    var a := FreeSlots(b, low);
    ReadyFree(ctx, b, low, t);
    u := DoStore(ctx, a, b, t1, t, t, low, v.data, x.data);
    u := DoStore(ctx, a, t1, t2, t, u, low + 1, v.isNull, VBool(x.isNull));
    if ty == Varchar {
      u := DoStore(ctx, a, t2, c, t, u, low + 2, v.length, x.len);
    }
  }

  /** The snapshots for one WHEN: condition, decision, result, stores. */
  datatype Branch = Branch(st: Fn, v: Fn, d1: Fn, d: Fn, g: Goal, ts: Fn, tv: Fn, t1: Fn, t2: Fn, t3: Fn, r: Goal) {
    ghost predicate Built(schema: seq<Type>, ty: Type, low: nat) {
      && Computes(schema, st, v, [g]) && g.t == Boolean && DecideCode(v, d1, d, g.v)
      && Computes(schema, ts, tv, [r]) && r.t == ty && StoreCode(tv, t1, t2, t3, low, ty, r.v)
      && Fresh(st) && Fresh(ts) && low + 2 < st.slots && low + 2 < ts.slots
    }

    ghost predicate In(thn: nat, els: nat, merge: nat, z: seq<Block>) {
      && d.cur < |d.blocks| && Sub(d.Close(CondBr(Reg(d1.regs), thn, els)).blocks, z)
      && t3.cur < |t3.blocks| && Sub(t3.Close(Br(merge)).blocks, z)
    }
  }

  lemma BranchMore(br: Branch, thn: nat, els: nat, merge: nat, y: seq<Block>, z: seq<Block>)
    requires br.In(thn, els, merge, y) && Sub(y, z)
    ensures br.In(thn, els, merge, z)
  {
    SubTrans(br.d.Close(CondBr(Reg(br.d1.regs), thn, els)).blocks, y, z);
    SubTrans(br.t3.Close(Br(merge)).blocks, y, z);
  }

  /** Where the run is headed while no branch has been taken. */
  ghost predicate Heading(ctx: Context, a: Fn, z: seq<Block>, s: State, t: State, block: nat) {
    Path(ctx, a, z, s, t) && t.block == block && t.idx == 0
  }

  /** The condition block: on to the result block, or to the next condition. */
  lemma ConditionRuns(ctx: Context, schema: seq<Type>, a: Fn, br: Branch, ty: Type, thn: nat, els: nat, merge: nat,
                      z: seq<Block>, s: State, t: State)
    returns (u: State)
    requires ContextOk(ctx, schema) && br.Built(schema, ty, a.slots) && br.In(thn, els, merge, z)
    requires Heading(ctx, a, z, s, t, br.st.cur) && a.regs <= br.st.regs
    ensures Heading(ctx, a, z, s, u, if br.g.sem(ctx) == TRUE then thn else els)
  {
    ConditionComputes(schema, br, ty, a.slots);
    ConditionSubs(br, thn, els, z);
    hide Sub, Grown, Met, Delivers, ContextOk, DecideCode, StoreCode, Fn.Open;
    u := PathVisit(ctx, schema, a, br.st, br.d, [], [Flag(Reg(br.d1.regs), IsTrue(br.g))], z, s, t);
    OneOf(ctx, Flag(Reg(br.d1.regs), IsTrue(br.g)), u);
    FlagMet(ctx, Reg(br.d1.regs), IsTrue(br.g), u);
    var target := if br.g.sem(ctx) == TRUE then thn else els;
    PathJump(ctx, a, br.d, CondBr(Reg(br.d1.regs), thn, els), target, z, s, u);
    u := Enter(u, target);
  }

  lemma ConditionComputes(schema: seq<Type>, br: Branch, ty: Type, low: nat)
    requires br.Built(schema, ty, low)
    ensures Computes(schema, br.st, br.d, [Flag(Reg(br.d1.regs), IsTrue(br.g))])
  {
    hide Delivers, StoreCode;
    GrownIsOpen(br.st, br.v);
    DecideComputes(schema, br.v, br.d1, br.d, br.g);
    ComputesMore(schema, br.st, br.v, br.d, [br.g], [Flag(Reg(br.d1.regs), IsTrue(br.g))]);
  }

  lemma ConditionSubs(br: Branch, thn: nat, els: nat, z: seq<Block>)
    requires br.d.cur < |br.d.blocks| && Sub(br.d.Close(CondBr(Reg(br.d1.regs), thn, els)).blocks, z) && br.d.Open()
    ensures Sub(br.d.blocks, z)
  {
    SubOfClose(br.d, CondBr(Reg(br.d1.regs), thn, els), z);
  }

  /** Compute a result in its block, store it, go to the merge block. */
  lemma ResultRuns(ctx: Context, schema: seq<Type>, a: Fn, ts: Fn, tv: Fn, t1: Fn, t2: Fn, t3: Fn, r: Goal, merge: nat,
                   z: seq<Block>, s: State, t: State)
    returns (u: State)
    requires ContextOk(ctx, schema) && Computes(schema, ts, tv, [r]) && StoreCode(tv, t1, t2, t3, a.slots, r.t, r.v)
    requires Fresh(ts) && a.slots + 2 < ts.slots && a.regs <= ts.regs
    requires t3.cur < |t3.blocks| && Sub(t3.Close(Br(merge)).blocks, z) && Heading(ctx, a, z, s, t, ts.cur)
    ensures Heading(ctx, a, z, s, u, merge) && Stored(u, a.slots, r.t, r.sem(ctx))
  {
    hide Sub, Grown, Met, Delivers, ContextOk, StoreCode, Fn.Open, Fn.Close;
    ResultSubs(ts, tv, t1, t2, t3, a.slots, r.t, r.v, merge, z);
    var v := PathVisit(ctx, schema, a, ts, tv, [], [r], z, s, t);
    OneOf(ctx, r, v);
    u := StoreRuns(ctx, tv, t1, t2, t3, a.slots, r, v);
    u := ResultJumps(ctx, a, tv, t3, r, merge, z, s, v, u);
  }

  lemma ResultJumps(ctx: Context, a: Fn, tv: Fn, t3: Fn, r: Goal, merge: nat, z: seq<Block>, s: State, v: State,
                    w: State) returns (u: State)
    requires Path(ctx, a, z, s, v) && At(ctx, FreeSlots(tv, a.slots), t3, v, w) &&
      Stored(w, a.slots, r.t, r.sem(ctx)) && a.regs <= tv.regs
    requires t3.cur < |t3.blocks| && Sub(t3.blocks, z) && Sub(t3.Close(Br(merge)).blocks, z)
    ensures Heading(ctx, a, z, s, u, merge) && Stored(u, a.slots, r.t, r.sem(ctx))
  {
    PathArrives(ctx, a, FreeSlots(tv, a.slots), t3, z, s, v, w);
    PathJump(ctx, a, t3, Br(merge), merge, z, s, w);
    u := Enter(w, merge);
  }

  lemma ResultSubs(ts: Fn, tv: Fn, t1: Fn, t2: Fn, t3: Fn, low: nat, ty: Type, v: CodeGenValue, merge: nat,
                   z: seq<Block>)
    requires Grown(ts, tv) && StoreCode(tv, t1, t2, t3, low, ty, v)
    requires t3.cur < |t3.blocks| && Sub(t3.Close(Br(merge)).blocks, z)
    ensures Sub(tv.blocks, z) && Sub(t3.blocks, z) && tv.Open() && ts.regs <= tv.regs && ts.slots <= tv.slots
  {
    GrownStart(tv);
    StoreGrows(tv, tv, t1, t2, t3, low, ty, v, {});
    SubOfClose(t3, Br(merge), z);
    SubTrans(tv.blocks, t3.blocks, z);
  }

  // ---------- the whole chain ----------

  function WhenAt(a: Fn, n: nat, i: nat): nat {
    if i < n then |a.blocks| + 2 + 2 * i else |a.blocks|
  }

  function ThenAt(a: Fn, i: nat): nat {
    |a.blocks| + 3 + 2 * i
  }

  ghost predicate BranchAt(schema: seq<Type>, a: Fn, ty: Type, br: Branch, cond: nat, thn: nat, next: nat,
                           z: seq<Block>) {
    && br.Built(schema, ty, a.slots) && br.In(thn, next, |a.blocks| + 1, z)
    && br.st.cur == cond && br.ts.cur == thn && a.regs <= br.st.regs && a.regs <= br.ts.regs
  }

  /** The first branches of a CASE with `n` of them are in place in `z`. */
  ghost predicate BranchesTo(schema: seq<Type>, a: Fn, ty: Type, brs: seq<Branch>, n: nat, z: seq<Block>) {
    forall i | 0 <= i < |brs| :: BranchAt(schema, a, ty, brs[i], WhenAt(a, n, i), ThenAt(a, i), WhenAt(a, n, i + 1), z)
  }

  datatype SwitchCode = SwitchCode(a: Fn, p: Fn, ty: Type, brs: seq<Branch>, fs: Fn, fv: Fn, f1: Fn, f2: Fn, f3: Fn,
      r: Goal,
      m: Fn, m1: Fn, m2: Fn, done: Fn) {
    const F := |a.blocks|
    const M := |a.blocks| + 1

    /** Where the i-th condition starts; after the last one comes the else block. */
    function Cond(i: nat): nat {
      WhenAt(a, |brs|, i)
    }

    ghost predicate BranchesOk(schema: seq<Type>) {
      BranchesTo(schema, a, ty, brs, |brs|, done.blocks)
    }

    ghost predicate ElseOk(schema: seq<Type>) {
      && Computes(schema, fs, fv, [r]) && r.t == ty && StoreCode(fv, f1, f2, f3, a.slots, ty, r.v)
      && Fresh(fs) && fs.cur == F && a.slots + 2 < fs.slots && a.regs <= fs.regs
      && f3.cur < |f3.blocks| && Sub(f3.Close(Br(M)).blocks, done.blocks)
    }

    ghost predicate MergeCode() {
      && Fresh(m) && m.cur == M && a.regs <= m.regs && a.slots + 2 < m.slots
      && IsAdd(m, LoadI(m.regs, a.slots), m1) && IsAdd(m1, LoadI(m1.regs, a.slots + 1), m2)
      && if ty == Varchar then IsAdd(m2, LoadI(m2.regs, a.slots + 2), done) else done == m2
    }

    function Result(): CodeGenValue {
      CodeGenValue(Reg(m.regs), Reg(m1.regs), if ty == Varchar then Reg(m2.regs) else NO_LENGTH)
    }
  }

  /** The value of the first branch whose condition is a definite true. */
  function FirstTrue(brs: seq<Branch>, els: Goal, ctx: Context, i: nat): Sql
    requires i <= |brs|
    decreases |brs| - i
  {
    if i == |brs| then els.sem(ctx)
    else if brs[i].g.sem(ctx) == TRUE then brs[i].r.sem(ctx)
    else FirstTrue(brs, els, ctx, i + 1)
  }

  lemma {:induction false} BranchesRun(ctx: Context, schema: seq<Type>, x: SwitchCode, i: nat, s: State, t: State)
                                       returns (u: State)
    requires ContextOk(ctx, schema) && x.BranchesOk(schema) && x.ElseOk(schema) && i <= |x.brs|
    requires Heading(ctx, x.a, x.done.blocks, s, t, x.Cond(i))
    ensures Heading(ctx, x.a, x.done.blocks, s, u, x.M) && Stored(u, x.a.slots, x.ty, FirstTrue(x.brs, x.r, ctx, i))
    decreases |x.brs| - i
  {
    hide Heading, Stored, Fresh, Sub, Grown, Delivers, ContextOk, StoreCode, DecideCode, Fn.Open, Fn.Close, Branch.In;
    assert i < |x.brs| ==>
      BranchAt(schema, x.a, x.ty, x.brs[i], x.Cond(i), ThenAt(x.a, i), x.Cond(i + 1), x.done.blocks);
    if i == |x.brs| {
      u := ResultRuns(ctx, schema, x.a, x.fs, x.fv, x.f1, x.f2, x.f3, x.r, x.M, x.done.blocks, s, t);
    } else {
      var br := x.brs[i];
      u := ConditionRuns(ctx, schema, x.a, br, x.ty, ThenAt(x.a, i), x.Cond(i + 1), x.M, x.done.blocks, s, t);
      if br.g.sem(ctx) == TRUE {
        InParts2(br, ThenAt(x.a, i), x.Cond(i + 1), x.M, x.done.blocks);
        u := ResultRuns(ctx, schema, x.a, br.ts, br.tv, br.t1, br.t2, br.t3, br.r, x.M, x.done.blocks, s, u);
      } else {
        u := BranchesRun(ctx, schema, x, i + 1, s, u);
      }
    }
  }

  lemma InParts2(br: Branch, thn: nat, els: nat, merge: nat, z: seq<Block>)
    requires br.In(thn, els, merge, z)
    ensures br.t3.cur < |br.t3.blocks| && Sub(br.t3.Close(Br(merge)).blocks, z)
  {
  }

  /** The merge block reads the result back. */
  lemma MergeLoads(ctx: Context, x: SwitchCode, t: State, sql: Sql) returns (u: State)
    requires At(ctx, x.m, x.m, t, t) && x.MergeCode() && Stored(t, x.a.slots, x.ty, sql)
    ensures At(ctx, x.m, x.done, t, u) && Holds(x.ty, x.Result(), sql, u)
  {
    hide At, Fn.Open, Fn.Add, ArgOk, SqlOf, Fresh;
    var low := x.a.slots;
    u := DoLoad(ctx, x.m, x.m, x.m1, t, t, low, t.slots[low]);
    u := DoLoad(ctx, x.m, x.m1, x.m2, t, u, low + 1, t.slots[low + 1]);
    if x.ty == Varchar {
      u := DoLoad(ctx, x.m, x.m2, x.done, t, u, low + 2, t.slots[low + 2]);
    }
  }

  ghost predicate SwitchParts(schema: seq<Type>, x: SwitchCode, k: Goal) {
    && x.a.Open() && x.BranchesOk(schema) && x.ElseOk(schema) && x.MergeCode()
    && x.p.Open() && x.p == x.a.NewSlots(3).(blocks := x.p.blocks) && x.a.blocks <= x.p.blocks &&
      Sub(x.p.Close(Br(x.Cond(0))).blocks, x.done.blocks)
    && k.t == x.ty && k.v == x.Result()
  }

  lemma SwitchRow(ctx: Context, schema: seq<Type>, x: SwitchCode, k: Goal, s: State)
    requires SwitchParts(schema, x, k) && Starts(ctx, schema, x.a, s) && k.sem(ctx) == FirstTrue(x.brs, x.r, ctx, 0)
    ensures Delivers(ctx, x.a, x.done, [k], s)
  {
    hide Stored, Sub, Fn.Close, SwitchCode.BranchesOk, SwitchCode.ElseOk, ContextOk, Delivers;
    var z := x.done.blocks;
    PathSelf(ctx, x.a, z, s);
    assert x.p.AtEnd(s);
    PathJump(ctx, x.a, x.p, Br(x.Cond(0)), x.Cond(0), z, s, s);
    var t := BranchesRun(ctx, schema, x, 0, s, Enter(s, x.Cond(0)));
    SwitchEnds(ctx, x, k, s, t);
  }

  lemma SwitchEnds(ctx: Context, x: SwitchCode, k: Goal, s: State, t: State)
    requires Heading(ctx, x.a, x.done.blocks, s, t, x.M) && x.MergeCode() && Stored(t, x.a.slots, x.ty, k.sem(ctx))
    requires k.t == x.ty && k.v == x.Result()
    ensures Delivers(ctx, x.a, x.done, [k], s)
  {
    hide Stored, Fn.Add;
    Ready(ctx, x.m, t);
    var u := MergeLoads(ctx, x, t, k.sem(ctx));
    SubSame(x.done.blocks);
    PathArrives(ctx, x.a, x.m, x.done, x.done.blocks, s, t, u);
    assert Met(ctx, k, u);
    assert MetAll(ctx, [k], u);
  }

  /** CASE computes: the first definite true decides, a null condition passes on. */
  lemma SwitchComputes(schema: seq<Type>, x: SwitchCode, k: Goal)
    requires Grown(x.a, x.done) && SwitchParts(schema, x, k)
    requires forall ctx | ContextOk(ctx, schema) :: k.sem(ctx) == FirstTrue(x.brs, x.r, ctx, 0)
    ensures Computes(schema, x.a, x.done, [k])
  {
    hide SwitchParts, Grown, ContextOk, Delivers, FirstTrue;
    ResultBelow(schema, x, k);
    forall ctx, s | Starts(ctx, schema, x.a, s) ensures Delivers(ctx, x.a, x.done, [k], s) {
      SwitchRow(ctx, schema, x, k, s);
    }
  }

  lemma ResultBelow(schema: seq<Type>, x: SwitchCode, k: Goal)
    requires SwitchParts(schema, x, k)
    ensures BoundedAll([k], x.done.regs)
  {
  }

  // ---------- the shape of the code ----------

  /** The pending blocks: else and merge, and the blocks of the branches not yet reached. */
  function Ahead(t: nat, lo: nat, hi: nat): set<nat> {
    {t, t + 1} + Range(lo, hi)
  }

  /** Two blocks, then two per branch. */
  lemma FirstBlocks(a: Fn)
    requires a.Open()
    ensures var b := a.NewBlock().NewBlock().NewSlots(3);
      Grows(a, b, Ahead(|a.blocks|, |a.blocks| + 2, |b.blocks|)) && |b.blocks| == |a.blocks| + 2
  {
    var t := |a.blocks|;
    GrowsSelf(a);
    assert Ahead(t, t + 2, t + 2) == {} + {t} + {t + 1};
    hide Grows, Fn.Open, Ahead;
    GrowsNewBlock(a, a, {});
    GrowsNewBlock(a, a.NewBlock(), {} + {t});
    GrowsNewSlots(a, a.NewBlock().NewBlock(), {} + {t} + {t + 1}, 3);
  }

  lemma OneMoreAhead(a: Fn, b: Fn, t: nat, lo: nat)
    requires Grows(a, b, Ahead(t, lo, |b.blocks|)) && t + 1 < lo <= |b.blocks|
    ensures Grows(a, b.NewBlock(), Ahead(t, lo, |b.blocks| + 1))
  {
    assert Ahead(t, lo, |b.blocks|) + {|b.blocks|} == Ahead(t, lo, |b.blocks| + 1);
    GrowsNewBlock(a, b, Ahead(t, lo, |b.blocks|));
  }

  lemma AheadNext(t: nat, lo: nat, hi: nat)
    requires t + 1 < lo < hi
    ensures lo in Ahead(t, lo, hi) && Ahead(t, lo, hi) - {lo} == Ahead(t, lo + 1, hi)
  {
  }

  /** Into the first condition block. */
  lemma SwitchEntry(a: Fn, p: Fn, t: nat, hi: nat)
    requires Grows(a, p, Ahead(t, t + 2, hi)) && t + 2 < hi && p.cur < |p.blocks|
    ensures var c := p.Close(Br(t + 2)).At(t + 2);
      Grows(a, c, Ahead(t, t + 3, hi)) && Fresh(c) && Sub(p.Close(Br(t + 2)).blocks, c.blocks)
  {
    AheadNext(t, t + 2, hi);
    JumpOn(a, p, Ahead(t, t + 2, hi), Br(t + 2), t + 2);
    SubSame(p.Close(Br(t + 2)).blocks);
  }

  /** From the i-th condition into its result block. */
  lemma ConditionJumps(a: Fn, d: Fn, cond: Operand, i: nat, n: nat, hi: nat)
    requires i < n && hi == |a.blocks| + 2 + 2 * n && Grows(a, d, Ahead(|a.blocks|, |a.blocks| + 3 + 2 * i, hi))
    ensures d.cur < |d.blocks|
    ensures var t := |a.blocks|; var c := d.Close(CondBr(cond, ThenAt(a, i), WhenAt(a, n, i + 1))).At(ThenAt(a, i));
      Grows(a, c, Ahead(t, t + 4 + 2 * i, hi)) && Fresh(c) && Sub(d.blocks, c.blocks)
  {
    var t := |a.blocks|;
    var pend := Ahead(t, t + 3 + 2 * i, hi);
    AheadNext(t, t + 3 + 2 * i, hi);
    assert WhenAt(a, n, i + 1) in pend;
    JumpOn(a, d, pend, CondBr(cond, ThenAt(a, i), WhenAt(a, n, i + 1)), ThenAt(a, i));
  }

  /** From the i-th result to the next condition, or to the else block after the last. */
  lemma ResultLeaves(a: Fn, t3: Fn, i: nat, n: nat, hi: nat)
    requires i < n && hi == |a.blocks| + 2 + 2 * n && Grows(a, t3, Ahead(|a.blocks|, |a.blocks| + 4 + 2 * i, hi))
    ensures t3.cur < |t3.blocks|
    ensures var t := |a.blocks|; var c := t3.Close(Br(t + 1)).At(WhenAt(a, n, i + 1));
      Grows(a, c, if i + 1 == n then {t + 1} else Ahead(t, t + 5 + 2 * i, hi)) && Fresh(c) && Sub(t3.blocks, c.blocks)
  {
    hide Sub, Fresh;
    var t := |a.blocks|;
    var pend := Ahead(t, t + 4 + 2 * i, hi);
    if i + 1 == n {
      assert pend - {t} == {t + 1};
    } else {
      AheadNext(t, t + 4 + 2 * i, hi);
    }
    JumpOn(a, t3, pend, Br(t + 1), WhenAt(a, n, i + 1));
  }

  lemma BranchesMore(schema: seq<Type>, a: Fn, ty: Type, brs: seq<Branch>, n: nat, y: seq<Block>, z: seq<Block>)
    requires BranchesTo(schema, a, ty, brs, n, y) && Sub(y, z)
    ensures BranchesTo(schema, a, ty, brs, n, z)
  {
    hide Sub, Branch.In, Branch.Built;
    forall i | 0 <= i < |brs| ensures BranchAt(schema, a, ty, brs[i], WhenAt(a, n, i), ThenAt(a, i),
      WhenAt(a, n, i + 1), z) {
      assert BranchAt(schema, a, ty, brs[i], WhenAt(a, n, i), ThenAt(a, i), WhenAt(a, n, i + 1), y);
      BranchMore(brs[i], ThenAt(a, i), WhenAt(a, n, i + 1), |a.blocks| + 1, y, z);
    }
  }

  lemma BranchesAdd(schema: seq<Type>, a: Fn, ty: Type, brs: seq<Branch>, br: Branch, n: nat, z: seq<Block>)
    requires BranchesTo(schema, a, ty, brs, n, z) && BranchAt(schema, a, ty, br, WhenAt(a, n, |brs|), ThenAt(a, |brs|),
      WhenAt(a, n, |brs| + 1), z)
    ensures BranchesTo(schema, a, ty, brs + [br], n, z)
  {
    hide BranchAt;
    forall i | 0 <= i < |brs + [br]| ensures BranchAt(schema, a, ty, (brs + [br])[i], WhenAt(a, n, i), ThenAt(a, i),
      WhenAt(a, n, i + 1), z) {
      if i < |brs| {
        assert BranchAt(schema, a, ty, brs[i], WhenAt(a, n, i), ThenAt(a, i), WhenAt(a, n, i + 1), z);
      }
    }
  }

  /** The else block leaves for the merge block, which loads the result. */
  lemma ElseLeaves(a: Fn, f3: Fn)
    requires Grows(a, f3, {|a.blocks| + 1})
    ensures f3.cur < |f3.blocks|
    ensures var m := f3.Close(Br(|a.blocks| + 1)).At(|a.blocks| + 1);
      Grown(a, m) && Fresh(m) && Sub(f3.blocks, m.blocks)
  {
    var t := |a.blocks|;
    assert {t + 1} - {t + 1} == {};
    JumpOn(a, f3, {t + 1}, Br(t + 1), t + 1);
  }

  lemma MergeGrows(x: SwitchCode)
    requires Grown(x.a, x.m) && x.MergeCode()
    ensures Grown(x.a, x.done) && Sub(x.m.blocks, x.done.blocks)
  {
    hide Grows, Sub, Fn.Open, Fresh;
    GrowsStep(x.a, x.m, LoadI(x.m.regs, x.a.slots), x.m1, {});
    GrowsStep(x.a, x.m1, LoadI(x.m1.regs, x.a.slots + 1), x.m2, {});
    SubTrans(x.m.blocks, x.m1.blocks, x.m2.blocks);
    if x.ty == Varchar {
      GrowsStep(x.a, x.m2, LoadI(x.m2.regs, x.a.slots + 2), x.done, {});
      SubTrans(x.m.blocks, x.m2.blocks, x.done.blocks);
    }
  }
}
