/** Function calls: arguments in order with their null flags joined; results, nulls and overflow through stack
    slots. */
module FuncProofs {
  import opened SqlValues
  import opened Expressions
  import opened BlockIR
  import opened CodeShape
  import opened Translation
  import opened Steps
  import opened StringEqualProofs

  predicate ReturnsNull(sig: FnSig) {
    sig.discipline == InputDataAndNullAndReturnNull
  }

  /** Whether the argument null flags are joined on the way. */
  predicate Joins(sig: FnSig, variant: bool) {
    variant || sig.discipline != InputDataAndNull
  }

  // ---------- argument lists ----------

  function Values(gs: seq<Goal>): seq<CodeGenValue> {
    seq(|gs|, i requires 0 <= i < |gs| => gs[i].v)
  }

  function OpOne(t: Type, v: CodeGenValue, withNull: bool): seq<Operand> {
    [v.data] + (if t == Varchar then [v.length] else []) + (if withNull then [v.isNull] else [])
  }

  function OpsOf(params: seq<Type>, vs: seq<CodeGenValue>, withNulls: bool): seq<Operand>
    requires |params| == |vs|
  {
    if |vs| == 0 then []
    else
      var n := |vs| - 1;
      OpsOf(params[..n], vs[..n], withNulls) + OpOne(params[n], vs[n], withNulls)
  }

  /** Pushed after the arguments. */
  function Trailing(sig: FnSig, variant: bool, any: Operand): seq<Operand> {
    if variant || ReturnsNull(sig) then [] else [any]
  }

  lemma {:induction false} EvAllAppend(s: State, xs: seq<Operand>, ys: seq<Operand>)
    requires EvAll(s, xs).Some? && EvAll(s, ys).Some?
    ensures EvAll(s, xs + ys) == Some(EvAll(s, xs).value + EvAll(s, ys).value)
    decreases |ys|
  {
    if |ys| == 0 {
      assert xs + ys == xs && EvAll(s, xs).value + [] == EvAll(s, xs).value;
    } else {
      var n := |ys| - 1;
      EvAllAppend(s, xs, ys[..n]);
      assert (xs + ys)[..|xs + ys| - 1] == xs + ys[..n] && (xs + ys)[|xs + ys| - 1] == ys[n];
      var front, last := EvAll(s, ys[..n]).value, Ev(s, ys[n]).value;
      assert EvAll(s, xs).value + front + [last] == EvAll(s, xs).value + (front + [last]);
    }
  }

  lemma EvAllOne(s: State, o: Operand)
    requires Ev(s, o).Some?
    ensures EvAll(s, [o]) == Some([Ev(s, o).value])
  {
    assert [o][..0] == [];
    assert EvAll(s, []) == Some([]) && [] + [Ev(s, o).value] == [Ev(s, o).value];
  }

  lemma EvOpOne(s: State, t: Type, v: CodeGenValue, a: Arg, withNull: bool)
    requires ArgAt(v, s) == Some(a)
    ensures EvAll(s, OpOne(t, v, withNull)) == Some(FlattenOne(t, a, withNull))
  {
    EvAllOne(s, v.data);
    var len := if t == Varchar then [v.length] else [];
    if t == Varchar {
      EvAllOne(s, v.length);
    }
    EvAllAppend(s, [v.data], len);
    var flag := if withNull then [v.isNull] else [];
    if withNull {
      EvAllOne(s, v.isNull);
    }
    EvAllAppend(s, [v.data] + len, flag);
  }

  lemma {:induction false} EvOps(s: State, params: seq<Type>, vs: seq<CodeGenValue>, args: seq<Arg>, withNulls: bool)
    requires |params| == |vs| == |args| && forall i | 0 <= i < |vs| :: ArgAt(vs[i], s) == Some(args[i])
    ensures EvAll(s, OpsOf(params, vs, withNulls)) == Some(Flatten(params, args, withNulls))
    decreases |vs|
  {
    if |vs| > 0 {
      var n := |vs| - 1;
      EvOps(s, params[..n], vs[..n], args[..n], withNulls);
      EvOpOne(s, params[n], vs[n], args[n], withNulls);
      EvAllAppend(s, OpsOf(params[..n], vs[..n], withNulls), OpOne(params[n], vs[n], withNulls));
    }
  }

  // ---------- joining the argument null flags ----------

  ghost predicate SomeNull(gs: seq<Goal>, ctx: Context) {
    exists i | 0 <= i < |gs| :: gs[i].sem(ctx).Null?
  }

  ghost function Joined(gs: seq<Goal>, joins: bool): Context -> bool {
    ctx => joins && SomeNull(gs, ctx)
  }

  /** One more argument: its null flag is joined in. */
  lemma JoinComputes(schema: seq<Type>, b: Fn, c: Fn, gs: seq<Goal>, g: Goal, any: Operand)
    requires b.Open() && BoundedAll([g], b.regs) && Below(any, b.regs) && IsAdd(b, OrI(b.regs, any, g.v.isNull), c)
    ensures ComputesFrom(schema, b, c, [Flag(any, Joined(gs, true)), g], [Flag(Reg(b.regs), Joined(gs + [g], true))])
  {
    hide Met, At, Grown, Delivers, Fn.Add, Fn.Open, SomeNull, Joined;
    var pre := [Flag(any, Joined(gs, true)), g];
    GrownStart(b);
    GrownStep(b, b, OrI(b.regs, any, g.v.isNull), c);
    assert Bounded([g][0].v, b.regs);
    forall ctx, s | Starts(ctx, schema, b, s) && MetAll(ctx, pre, s)
      ensures Delivers(ctx, b, c, [Flag(Reg(b.regs), Joined(gs + [g], true))], s)
    {
      assert Met(ctx, pre[0], s) && Met(ctx, pre[1], s);
      FlagMet(ctx, any, Joined(gs, true), s);
      var n := NullPart(ctx, g, s);
      Ready(ctx, b, s);
      var t := DoOr(ctx, b, b, c, s, s, any, g.v.isNull, Joined(gs, true)(ctx), n);
      JoinedMore(gs, g, ctx);
      FlagMet(ctx, Reg(b.regs), Joined(gs + [g], true), t);
      DeliversOne(ctx, b, c, Flag(Reg(b.regs), Joined(gs + [g], true)), s, t);
    }
  }

  lemma JoinedMore(gs: seq<Goal>, g: Goal, ctx: Context)
    ensures Joined(gs + [g], true)(ctx) == (Joined(gs, true)(ctx) || g.sem(ctx).Null?)
  {
    assert (gs + [g])[|gs|] == g;
    if SomeNull(gs, ctx) {
      var i :| 0 <= i < |gs| && gs[i].sem(ctx).Null?;
      assert (gs + [g])[i] == gs[i];
    }
    if SomeNull(gs + [g], ctx) {
      var i :| 0 <= i < |gs + [g]| && (gs + [g])[i].sem(ctx).Null?;
      assert i < |gs| ==> gs[i] == (gs + [g])[i];
    }
  }

  /** One more argument visited, and its null flag joined if the function wants that. */
  lemma NextArg(schema: seq<Type>, a: Fn, p: Fn, b: Fn, c: Fn, gs: seq<Goal>, g: Goal, any: Operand, any': Operand,
                joins: bool)
    requires Computes(schema, a, p, gs + [Flag(any, Joined(gs, joins))]) && Computes(schema, p, b, [g])
    requires
      if joins then IsAdd(b, OrI(b.regs, any, g.v.isNull), c) && any' == Reg(b.regs)
      else c == b && any == any' == Const(VBool(false))
    ensures Computes(schema, a, c, (gs + [g]) + [Flag(any', Joined(gs + [g], joins))])
  {
    hide Grown, Delivers, Met, Joined, Fn.Open;
    var flag := Flag(any, Joined(gs, joins));
    var have := gs + [flag];
    ComputesWeaken(schema, p, b, [], have, [g]);
    ComputesMore(schema, a, p, b, have, [g]);
    ArgBounds(schema, a, p, b, gs, g, flag);
    if joins {
      JoinComputes(schema, b, c, gs, g, any);
      assert have[|gs|] == flag && (have + [g])[|gs|] == flag && (have + [g])[|gs| + 1] == g;
      ComputesWeaken(schema, b, c, [flag, g], have + [g], [Flag(any', Joined(gs + [g], true))]);
      ComputesMore(schema, a, b, c, have + [g], [Flag(any', Joined(gs + [g], true))]);
      PickArgs(schema, a, c, have + [g] + [Flag(any', Joined(gs + [g], true))], gs, g, flag,
        Flag(any', Joined(gs + [g], true)));
    } else {
      PickArgs2(schema, a, b, have + [g], gs, g, flag);
      NoFlag(schema, a, b, gs + [g]);
    }
  }

  lemma ArgBounds(schema: seq<Type>, a: Fn, p: Fn, b: Fn, gs: seq<Goal>, g: Goal, flag: Goal)
    requires Computes(schema, a, p, gs + [flag]) && Computes(schema, p, b, [g])
    ensures b.Open() && BoundedAll([g], b.regs) && Below(flag.v.data, b.regs)
  {
    assert Bounded((gs + [flag])[|gs|].v, p.regs);
  }

  lemma PickArgs(schema: seq<Type>, a: Fn, c: Fn, all: seq<Goal>, gs: seq<Goal>, g: Goal, flag: Goal, last: Goal)
    requires Computes(schema, a, c, all) && all == gs + [flag] + [g] + [last]
    ensures Computes(schema, a, c, gs + [g] + [last])
  {
    forall i | 0 <= i < |gs + [g] + [last]| ensures (gs + [g] + [last])[i] in all {
      assert (gs + [g] + [last])[i] == all[if i < |gs| then i else i + 1];
    }
    ComputesPick(schema, a, c, [], all, gs + [g] + [last]);
  }

  lemma PickArgs2(schema: seq<Type>, a: Fn, c: Fn, all: seq<Goal>, gs: seq<Goal>, g: Goal, flag: Goal)
    requires Computes(schema, a, c, all) && all == gs + [flag] + [g]
    ensures Computes(schema, a, c, gs + [g])
  {
    forall i | 0 <= i < |gs + [g]| ensures (gs + [g])[i] in all {
      assert (gs + [g])[i] == all[if i < |gs| then i else i + 1];
    }
    ComputesPick(schema, a, c, [], all, gs + [g]);
  }

  /** Where nothing is joined the flag stays the constant false. */
  lemma NoFlag(schema: seq<Type>, a: Fn, b: Fn, gs: seq<Goal>)
    requires Computes(schema, a, b, gs)
    ensures Computes(schema, a, b, gs + [Flag(Const(VBool(false)), Joined(gs, false))])
  {
    var flag := Flag(Const(VBool(false)), Joined(gs, false));
    forall ctx, s | Starts(ctx, schema, a, s) ensures Delivers(ctx, a, b, gs + [flag], s) {
      assert Delivers(ctx, a, b, gs, s);
      var u :| Arrives(ctx, a, b, s, u) && MetAll(ctx, gs, u);
      FlagMet(ctx, Const(VBool(false)), Joined(gs, false), u);
      assert MetAll(ctx, gs + [flag], u);
    }
  }

  /** Before the first argument. */
  lemma FirstFlag(schema: seq<Type>, a: Fn, joins: bool)
    requires a.Open()
    ensures Computes(schema, a, a, [] + [Flag(Const(VBool(false)), Joined([], joins))])
  {
    hide Grown;
    var flag := Flag(Const(VBool(false)), Joined([], joins));
    GrownStart(a);
    forall ctx, s | Starts(ctx, schema, a, s) ensures Delivers(ctx, a, a, [] + [flag], s) {
      Ready(ctx, a, s);
      FlagMet(ctx, Const(VBool(false)), Joined([], joins), s);
      assert [] + [flag] == [flag];
      DeliversOne(ctx, a, a, flag, s, s);
    }
  }

  lemma OpsMore(params: seq<Type>, vs: seq<CodeGenValue>, t: Type, v: CodeGenValue, withNulls: bool)
    requires |params| == |vs|
    ensures OpsOf(params + [t], vs + [v], withNulls) == OpsOf(params, vs, withNulls) + OpOne(t, v, withNulls)
  {
    assert (params + [t])[..|vs|] == params && (vs + [v])[..|vs|] == vs;
  }

  // ---------- the call ----------

  /** The snapshots from the end of the arguments on: out-slots, call, loads. */
  datatype CallCode = CallCode(b: Fn, b1: Fn, b2: Fn, c1: Fn, c2: Fn, c3: Fn, c4: Fn, c: Fn) {
    function NullSlot(sig: FnSig): Option<nat> {
      if ReturnsNull(sig) then Some(b.slots) else None
    }

    function LenSlot(sig: FnSig): Option<nat> {
      if sig.ret == Varchar then Some(b1.slots) else None
    }

    function Call(sig: FnSig, variant: bool, ops: seq<Operand>, overflow: Option<nat>): Instr {
      CallFnI(b2.regs, sig, variant, ops, LenSlot(sig), NullSlot(sig), overflow)
    }

    /** The operand holding the null flag the function itself is responsible for. */
    function BaseNull(sig: FnSig, any: Operand): Operand {
      if ReturnsNull(sig) then Reg(c2.regs) else any
    }

    ghost predicate Built(sig: FnSig, variant: bool, ops: seq<Operand>, overflow: Option<nat>, any: Operand) {
      && (if ReturnsNull(sig) then IsStore(b.NewSlots(1), b.slots, Const(VBool(false)), b1) else b1 == b)
      && (if sig.ret == Varchar then IsStore(b1.NewSlots(1), b1.slots, Const(VInt(0)), b2) else b2 == b1)
      && IsAdd(b2, Call(sig, variant, ops, overflow), c1)
      && (if sig.ret == Varchar then IsAdd(c1, LoadI(c1.regs, b1.slots), c2) else c2 == c1)
      && (if ReturnsNull(sig) then IsAdd(c2, LoadI(c2.regs, b.slots), c3) else c3 == c2)
      && (if variant then overflow.Some? && IsAdd(c3, LoadI(c3.regs, overflow.value), c4) &&
        IsAdd(c4, OrI(c4.regs, BaseNull(sig, any), Reg(c3.regs)), c)
          else overflow.None? && c4 == c3 && c == c3)
    }

    function Result(sig: FnSig, variant: bool, any: Operand): CodeGenValue {
      CodeGenValue(Reg(b2.regs), if variant then Reg(c4.regs) else BaseNull(sig, any), if sig.ret == Varchar
        then Reg(c1.regs) else NO_LENGTH)
    }
  }

  lemma CallGrown(a: Fn, x: CallCode, sig: FnSig, variant: bool, ops: seq<Operand>, overflow: Option<nat>, any: Operand)
    requires Grown(a, x.b) && x.Built(sig, variant, ops, overflow, any)
    ensures Grown(a, x.c)
  {
    hide Grown, Fn.Add, Fn.Ins, Fn.Open;
    if ReturnsNull(sig) {
      GrownSlots(a, x.b, 1);
      GrownStore(a, x.b.NewSlots(1), x.b.slots, Const(VBool(false)), x.b1);
    }
    if sig.ret == Varchar {
      GrownSlots(a, x.b1, 1);
      GrownStore(a, x.b1.NewSlots(1), x.b1.slots, Const(VInt(0)), x.b2);
    }
    GrownStep(a, x.b2, x.Call(sig, variant, ops, overflow), x.c1);
    if sig.ret == Varchar {
      GrownStep(a, x.c1, LoadI(x.c1.regs, x.b1.slots), x.c2);
    }
    if ReturnsNull(sig) {
      GrownStep(a, x.c2, LoadI(x.c2.regs, x.b.slots), x.c3);
    }
    if variant {
      GrownStep(a, x.c3, LoadI(x.c3.regs, overflow.value), x.c4);
      GrownStep(a, x.c4, OrI(x.c4.regs, x.BaseNull(sig, any), Reg(x.c3.regs)), x.c);
    }
  }

  /** Operands over earlier registers read the same. */
  ghost predicate Reads(n: nat, s: State, t: State) {
    forall o: Operand | Below(o, n) :: Ev(t, o) == Ev(s, o)
  }

  /** The out-slots are set up. */
  lemma ToCall(ctx: Context, a: Fn, x: CallCode, sig: FnSig, variant: bool, ops: seq<Operand>, overflow: Option<nat>,
               any: Operand, s: State, t: State)
    returns (u: State)
    requires At(ctx, a, x.b, s, t) && x.Built(sig, variant, ops, overflow, any)
    ensures At(ctx, a, x.b2, s, u) && (forall o: Operand :: Ev(u, o) == Ev(t, o)) && a.slots <= x.b.slots <= x.b1.slots
    ensures ReturnsNull(sig) ==> x.b.slots < x.b1.slots
  {
    assert a.slots <= x.b.slots;
    hide At, Fn.Ins, Fn.Add;
    u := t;
    if ReturnsNull(sig) {
      AtSlots(ctx, a, x.b, s, u, 1);
      u := DoStore(ctx, a, x.b.NewSlots(1), x.b1, s, u, x.b.slots, Const(VBool(false)), VBool(false));
    }
    if sig.ret == Varchar {
      AtSlots(ctx, a, x.b1, s, u, 1);
      u := DoStore(ctx, a, x.b1.NewSlots(1), x.b2, s, u, x.b1.slots, Const(VInt(0)), VInt(0));
    }
  }

  /** Writing through the three out-pointers. */
  lemma PutThree(t: State, lenSlot: Option<nat>, nullSlot: Option<nat>, overflow: Option<nat>, l: Val, n: Val, o: Val,
                 least: nat) returns (u: State)
    requires (lenSlot.Some? ==> least <= lenSlot.value) && (nullSlot.Some? ==> least <= nullSlot.value) &&
      (overflow.Some? ==> least <= overflow.value)
    requires lenSlot.Some? && nullSlot.Some? ==> lenSlot.value != nullSlot.value
    requires overflow.Some? ==>
      (lenSlot.Some? ==> lenSlot.value != overflow.value) && (nullSlot.Some? ==> nullSlot.value != overflow.value)
    ensures u == PutOpt(PutOpt(PutOpt(t, lenSlot, l), nullSlot, n), overflow, o)
    ensures u.(slots := t.slots) == t && forall x: nat | x < least && x in t.slots ::
      x in u.slots && u.slots[x] == t.slots[x]
    ensures lenSlot.Some? ==> lenSlot.value in u.slots && u.slots[lenSlot.value] == l
    ensures nullSlot.Some? ==> nullSlot.value in u.slots && u.slots[nullSlot.value] == n
    ensures overflow.Some? ==> overflow.value in u.slots && u.slots[overflow.value] == o
  {
    u := PutOpt(PutOpt(PutOpt(t, lenSlot, l), nullSlot, n), overflow, o);
  }

  lemma DoCall(ctx: Context, a: Fn, c: Fn, d: Fn, s: State, t: State, sig: FnSig, variant: bool, ops: seq<Operand>,
      lenSlot: Option<nat>, nullSlot: Option<nat>, overflow: Option<nat>, vs: seq<Val>) returns (u: State)
    requires At(ctx, a, c, s, t) && IsAdd(c, CallFnI(c.regs, sig, variant, ops, lenSlot, nullSlot, overflow), d) &&
      EvAll(t, ops) == Some(vs)
    requires (lenSlot.Some? ==> a.slots <= lenSlot.value) && (nullSlot.Some? ==> a.slots <= nullSlot.value) &&
      (overflow.Some? ==> a.slots <= overflow.value)
    requires lenSlot.Some? && nullSlot.Some? ==> lenSlot.value != nullSlot.value
    requires overflow.Some? ==>
      (lenSlot.Some? ==> lenSlot.value != overflow.value) && (nullSlot.Some? ==> nullSlot.value != overflow.value)
    ensures At(ctx, a, d, s, u) && Reads(c.regs, t, u)
    ensures var out := ctx.kernels.call(sig, variant, vs);
      && Ev(u, Reg(c.regs)) == Some(out.data)
      && (lenSlot.Some? ==> lenSlot.value in u.slots && u.slots[lenSlot.value] == VInt(out.len))
      && (nullSlot.Some? ==> nullSlot.value in u.slots && u.slots[nullSlot.value] == VBool(out.isNull))
      && (overflow.Some? ==> overflow.value in u.slots && u.slots[overflow.value] == VBool(out.overflow))
  {
    hide PutOpt;
    var out := ctx.kernels.call(sig, variant, vs);
    var w := PutThree(t, lenSlot, nullSlot, overflow, VInt(out.len), VBool(out.isNull), VBool(out.overflow), a.slots);
    u := Def(w, c.regs, out.data);
    ArrivesIns(ctx, a, c, s, t, CallFnI(c.regs, sig, variant, ops, lenSlot, nullSlot, overflow), 1, u);
  }

  /** After the call: the result operands hold what the kernel returned. */
  lemma FromCall(ctx: Context, a: Fn, x: CallCode, sig: FnSig, variant: bool, ops: seq<Operand>, overflow: Option<nat>,
                 any: Operand,
      s: State, t: State, vs: seq<Val>, n: bool) returns (u: State)
    requires At(ctx, a, x.b2, s, t) && x.Built(sig, variant, ops, overflow, any) && EvAll(t, ops) == Some(vs)
    requires a.slots <= x.b.slots <= x.b1.slots && (ReturnsNull(sig) ==> x.b.slots < x.b1.slots)
    requires overflow.Some? ==> a.slots <= overflow.value < x.b.slots
    requires Below(any, x.b2.regs) && Ev(t, any) == Some(VBool(n))
    ensures At(ctx, a, x.c, s, u)
    ensures var out := ctx.kernels.call(sig, variant, vs); var r := x.Result(sig, variant, any);
      && Ev(u, r.data) == Some(out.data) && (sig.ret == Varchar ==> Ev(u, r.length) == Some(VInt(out.len)))
      && Ev(u, r.isNull) == Some(VBool((if ReturnsNull(sig) then out.isNull else n) || (variant && out.overflow)))
  {
    hide At, Fn.Ins, Fn.Add;
    var out := ctx.kernels.call(sig, variant, vs);
    u := DoCall(ctx, a, x.b2, x.c1, s, t, sig, variant, ops, x.LenSlot(sig), x.NullSlot(sig), overflow, vs);
    if sig.ret == Varchar {
      u := DoLoad(ctx, a, x.c1, x.c2, s, u, x.b1.slots, VInt(out.len));
    }
    if ReturnsNull(sig) {
      u := DoLoad(ctx, a, x.c2, x.c3, s, u, x.b.slots, VBool(out.isNull));
    }
    if variant {
      u := DoLoad(ctx, a, x.c3, x.c4, s, u, overflow.value, VBool(out.overflow));
      u := DoOr(ctx, a, x.c4, x.c, s, u, x.BaseNull(sig, any), Reg(x.c3.regs), if ReturnsNull(sig) then out.isNull
        else n, out.overflow);
    }
  }

  /** What the kernel contract says about the SQL value. */
  lemma KernelMeets(ctx: Context, schema: seq<Type>, sig: FnSig, variant: bool, args: seq<Arg>, sqls: seq<Sql>, n: bool,
                    v: CodeGenValue, u: State)
    requires ContextOk(ctx, schema) && ArgsOk(sig.params, args) && sqls == SqlsOf(sig.params, args)
    requires n == (Joins(sig, variant) && AnyNull(args))
    requires var vs := Flatten(sig.params, args, PassesNulls(sig, variant)) + TrailingFlag(sig, variant, AnyNull(args));
      var out := ctx.kernels.call(sig, variant, vs);
      && Ev(u, v.data) == Some(out.data) && (if sig.ret == Varchar then Ev(u, v.length) == Some(VInt(out.len))
        else v.length == NO_LENGTH)
      && Ev(u, v.isNull) == Some(VBool((if ReturnsNull(sig) then out.isNull else n) || (variant && out.overflow)))
    ensures Holds(sig.ret, v, FuncSql(ctx.kernels, sig, variant, sqls), u)
  {
    assert KernelOk(ctx.kernels, sig, variant, args);
    if AnyNull(args) {
      var i :| 0 <= i < |args| && args[i].isNull;
      assert sqls[i] == Null;
    }
    if Null in sqls {
      var i :| 0 <= i < |sqls| && sqls[i] == Null;
      assert args[i].isNull;
    }
  }

  function Sems(gs: seq<Goal>, ctx: Context): seq<Sql> {
    seq(|gs|, i requires 0 <= i < |gs| => gs[i].sem(ctx))
  }

  ghost function ArgsAt(gs: seq<Goal>, s: State): seq<Arg>
    requires forall i | 0 <= i < |gs| :: ArgAt(gs[i].v, s).Some?
  {
    seq(|gs|, i requires 0 <= i < |gs| => ArgAt(gs[i].v, s).value)
  }

  /** What the arguments hold, as the kernel contract reads it. */
  lemma ReadArgs(ctx: Context, params: seq<Type>, gs: seq<Goal>, s: State) returns (args: seq<Arg>, sqls: seq<Sql>)
    requires |params| == |gs| && MetAll(ctx, gs, s) && forall i | 0 <= i < |gs| :: gs[i].t == params[i]
    ensures ArgsOk(params, args) && sqls == SqlsOf(params, args) && |args| == |gs|
    ensures forall i | 0 <= i < |gs| :: ArgAt(gs[i].v, s) == Some(args[i]) && sqls[i] == gs[i].sem(ctx)
    ensures AnyNull(args) == SomeNull(gs, ctx)
  {
    forall i | 0 <= i < |gs| ensures ArgAt(gs[i].v, s).Some? && ArgOk(params[i], ArgAt(gs[i].v, s).value) &&
      SqlOf(params[i], ArgAt(gs[i].v, s).value) == gs[i].sem(ctx) {
      assert Met(ctx, gs[i], s);
    }
    args := ArgsAt(gs, s);
    sqls := SqlsOf(params, args);
    assert forall i | 0 <= i < |gs| :: args[i].isNull == gs[i].sem(ctx).Null?;
    if AnyNull(args) {
      var i :| 0 <= i < |args| && args[i].isNull;
      assert gs[i].sem(ctx).Null?;
    }
    if SomeNull(gs, ctx) {
      var i :| 0 <= i < |gs| && gs[i].sem(ctx).Null?;
      assert args[i].isNull;
    }
  }

  ghost predicate FuncParts(x: CallCode, sig: FnSig, variant: bool, overflow: Option<nat>, any: Operand, gs: seq<Goal>,
                            k: Goal) {
    && |gs| == |sig.params| && (forall i | 0 <= i < |gs| :: gs[i].t == sig.params[i])
    && x.Built(sig, variant, OpsOf(sig.params, Values(gs), PassesNulls(sig, variant)) + Trailing(sig, variant, any),
      overflow, any)
    && k.t == sig.ret && k.v == x.Result(sig, variant, any) && Below(any, x.b2.regs)
  }

  lemma CallRow(ctx: Context, schema: seq<Type>, a: Fn, x: CallCode, sig: FnSig, variant: bool, overflow: Option<nat>,
                any: Operand, gs: seq<Goal>, k: Goal, s: State, t: State)
    requires ContextOk(ctx, schema) && At(ctx, a, x.b, s, t) && FuncParts(x, sig, variant, overflow, any, gs, k)
    requires overflow.Some? ==> a.slots <= overflow.value < x.b.slots
    requires MetAll(ctx, gs, t) && Met(ctx, Flag(any, Joined(gs, Joins(sig, variant))), t)
    requires k.sem(ctx) == FuncSql(ctx.kernels, sig, variant, Sems(gs, ctx))
    ensures Delivers(ctx, a, x.c, [k], s)
  {
    hide At, Fn.Ins, Fn.Add, Fn.Open, Met, MetAll, Delivers, CallCode.Built, KernelsOk, FuncSql, ContextOk;
    var args, sqls := ReadArgs(ctx, sig.params, gs, t);
    FlagMet(ctx, any, Joined(gs, Joins(sig, variant)), t);
    var n := Joins(sig, variant) && AnyNull(args);
    var ops := OpsOf(sig.params, Values(gs), PassesNulls(sig, variant)) + Trailing(sig, variant, any);
    var u := ToCall(ctx, a, x, sig, variant, ops, overflow, any, s, t);
    forall i | 0 <= i < |gs| ensures ArgAt(Values(gs)[i], u) == Some(args[i]) {
      assert ArgAt(gs[i].v, u) == ArgAt(gs[i].v, t);
    }
    EvOps(u, sig.params, Values(gs), args, PassesNulls(sig, variant));
    EvTrailing(u, sig, variant, any, args);
    EvAllAppend(u, OpsOf(sig.params, Values(gs), PassesNulls(sig, variant)), Trailing(sig, variant, any));
    var vs := Flatten(sig.params, args, PassesNulls(sig, variant)) + TrailingFlag(sig, variant, AnyNull(args));
    var w := FromCall(ctx, a, x, sig, variant, ops, overflow, any, s, u, vs, n);
    assert sqls == Sems(gs, ctx);
    KernelMeets(ctx, schema, sig, variant, args, sqls, n, k.v, w);
    FuncMet(ctx, k, w);
    DeliversOne(ctx, a, x.c, k, s, w);
  }

  lemma FuncMet(ctx: Context, k: Goal, w: State)
    requires Holds(k.t, k.v, k.sem(ctx), w)
    ensures Met(ctx, k, w)
  {
  }

  lemma EvTrailing(u: State, sig: FnSig, variant: bool, any: Operand, args: seq<Arg>)
    requires Ev(u, any) == Some(VBool(Joins(sig, variant) && AnyNull(args)))
    ensures EvAll(u, Trailing(sig, variant, any)) == Some(TrailingFlag(sig, variant, AnyNull(args)))
  {
    EvAllOne(u, any);
  }

  /** Arguments, then the call: the result is the SQL function of the argument values. */
  lemma FuncComputes(schema: seq<Type>, a: Fn, a1: Fn, x: CallCode, sig: FnSig, variant: bool, overflow: Option<nat>,
                     any: Operand, gs: seq<Goal>, k: Goal)
    requires a.Open() && FuncParts(x, sig, variant, overflow, any, gs, k)
    requires if variant then overflow == Some(a.slots) && IsStore(a.NewSlots(1), a.slots, Const(VBool(false)), a1)
      else overflow.None? && a1 == a
    requires Computes(schema, a1, x.b, gs + [Flag(any, Joined(gs, Joins(sig, variant)))])
    requires forall ctx | ContextOk(ctx, schema) :: k.sem(ctx) == FuncSql(ctx.kernels, sig, variant, Sems(gs, ctx))
    ensures Computes(schema, a, x.c, [k])
  {
    hide Met, Grown, Fn.Ins, Fn.Add, Fn.Open, CallCode.Built, FuncSql, ContextOk;
    var ops := OpsOf(sig.params, Values(gs), PassesNulls(sig, variant)) + Trailing(sig, variant, any);
    var flag := Flag(any, Joined(gs, Joins(sig, variant)));
    GrownStart(a);
    if variant {
      GrownSlots(a, a, 1);
      GrownStore(a, a.NewSlots(1), a.slots, Const(VBool(false)), a1);
    }
    FuncBound(a, a1, x, sig, variant, overflow, any, gs, k, ops);
    forall ctx, s | Starts(ctx, schema, a, s) ensures Delivers(ctx, a, x.c, [k], s) {
      Ready(ctx, a, s);
      var t := s;
      if variant {
        AtSlots(ctx, a, a, s, s, 1);
        t := DoStore(ctx, a, a.NewSlots(1), a1, s, s, a.slots, Const(VBool(false)), VBool(false));
      }
      FuncRow(ctx, schema, a, a1, x, sig, variant, overflow, any, gs, k, s, t);
    }
  }

  lemma FuncBound(a: Fn, a1: Fn, x: CallCode, sig: FnSig, variant: bool, overflow: Option<nat>, any: Operand,
                  gs: seq<Goal>, k: Goal, ops: seq<Operand>)
    requires Grown(a, a1) && Grown(a1, x.b) && FuncParts(x, sig, variant, overflow, any, gs, k)
    requires ops == OpsOf(sig.params, Values(gs), PassesNulls(sig, variant)) + Trailing(sig, variant, any)
    ensures Grown(a, x.b) && Grown(a, x.c) && Bounded(k.v, x.c.regs) && BoundedAll([k], x.c.regs) && a1.Open() &&
      x.b.Open()
    ensures a.regs <= a1.regs <= x.b.regs && a.slots <= a1.slots <= x.b.slots
  {
    GrownTrans(a, a1, x.b);
    CallGrown(a, x, sig, variant, ops, overflow, any);
  }

  lemma FuncRow(ctx: Context, schema: seq<Type>, a: Fn, a1: Fn, x: CallCode, sig: FnSig, variant: bool,
                overflow: Option<nat>, any: Operand, gs: seq<Goal>, k: Goal, s: State, t: State)
    requires ContextOk(ctx, schema) && At(ctx, a, a1, s, t) && FuncParts(x, sig, variant, overflow, any, gs, k) &&
      Grown(a1, x.b) && x.b.Open()
    requires a1.slots <= x.b.slots && a1.regs <= x.b.regs &&
      (variant ==> overflow.Some? && a.slots <= overflow.value < a1.slots)
    requires !variant ==> overflow.None?
    requires Computes(schema, a1, x.b, gs + [Flag(any, Joined(gs, Joins(sig, variant)))])
    requires k.sem(ctx) == FuncSql(ctx.kernels, sig, variant, Sems(gs, ctx))
    ensures Delivers(ctx, a, x.c, [k], s)
  {
    var flag := Flag(any, Joined(gs, Joins(sig, variant)));
    GrowsSub(a1, x.b, {});
    hide Met, Grown, Fn.Ins, Fn.Add, Fn.Open, FuncParts, FuncSql, KernelsOk, Flag, Joined;
    assert Delivers(ctx, a1, x.b, gs + [flag], t);
    var u :| Arrives(ctx, a1, x.b, t, u) && MetAll(ctx, gs + [flag], u);
    ReachesSub(ctx, a1.blocks, x.b.blocks, s, t);
    ReachesTrans(ctx, x.b.blocks, s, t, u);
    FrameTrans(a, a1, s, t, u);
    forall i | 0 <= i < |gs| ensures Met(ctx, gs[i], u) {
      assert Met(ctx, (gs + [flag])[i], u);
    }
    assert Met(ctx, (gs + [flag])[|gs|], u);
    assert MetAll(ctx, gs, u);
    CallRow(ctx, schema, a, x, sig, variant, overflow, any, gs, k, s, u);
  }
}
