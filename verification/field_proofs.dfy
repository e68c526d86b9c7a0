/** Column access: a diamond that tells dictionary vectors from flat ones. */
module FieldProofs {
  import opened SqlValues
  import opened Expressions
  import opened BlockIR
  import opened CodeShape
  import opened Translation
  import opened Steps
  import opened BranchProofs
  import opened StringEqualProofs

  predicate Known(schema: seq<Type>, ty: Type, col: nat) {
    col < |schema| && schema[col] == ty
  }

  /** The cell at the current row, whether or not its null bit is set. */
  ghost function Raw(schema: seq<Type>, ty: Type, col: nat): Context -> Sql {
    (ctx: Context) =>
      if ContextOk(ctx, schema) && Known(schema, ty, col) then
        var d := ctx.columns[col].DatumAt(ty, ctx.row);
        Value(Visible(ty, d.data, d.len))
      else Null
  }

  ghost function IsDictionary(col: nat): Context -> bool {
    (ctx: Context) => col < |ctx.columns| && ctx.columns[col].Dictionary?
  }

  /** The dictionary arm: strings also yield their length through a stack slot. */
  ghost predicate DictionaryCode(a: Fn, c1: Fn, c2: Fn, c: Fn, ty: Type, col: nat) {
    if ty == Varchar then
      && IsStore(a.NewSlots(1), a.slots, Const(VInt(0)), c1)
      && IsAdd(c1, DictionaryGetI(c1.regs, col, Some(a.slots)), c2)
      && IsAdd(c2, LoadI(c2.regs, a.slots), c)
    else
      c1 == a && c2 == c && IsAdd(a, DictionaryGetI(a.regs, col, None), c)
  }

  ghost function DictionaryGoal(schema: seq<Type>, a: Fn, c2: Fn, ty: Type, col: nat): Goal {
    Goal(ty, CodeGenValue(Reg(a.regs), Const(VBool(false)), if ty == Varchar then Reg(c2.regs) else NO_LENGTH),
      Raw(schema, ty, col))
  }

  lemma DictionaryComputes(schema: seq<Type>, a: Fn, c1: Fn, c2: Fn, c: Fn, ty: Type, col: nat, pre: seq<Goal>)
    requires a.Open() && Known(schema, ty, col) && Assume(IsDictionary(col)) in pre &&
      DictionaryCode(a, c1, c2, c, ty, col)
    ensures ComputesFrom(schema, a, c, pre, [DictionaryGoal(schema, a, c2, ty, col)])
  {
    hide Met, At, Grown, Delivers, Fn.Add, Fn.Ins, Fn.Open, Raw;
    GrownStart(a);
    if ty == Varchar {
      GrownSlots(a, a, 1);
      GrownStore(a, a.NewSlots(1), a.slots, Const(VInt(0)), c1);
      GrownStep(a, c1, DictionaryGetI(c1.regs, col, Some(a.slots)), c2);
      GrownStep(a, c2, LoadI(c2.regs, a.slots), c);
    } else {
      GrownStep(a, a, DictionaryGetI(a.regs, col, None), c);
    }
    var k := DictionaryGoal(schema, a, c2, ty, col);
    forall ctx, s | Starts(ctx, schema, a, s) && MetAll(ctx, pre, s) ensures Delivers(ctx, a, c, [k], s) {
      InMet(ctx, Assume(IsDictionary(col)), pre, s);
      AssumeMet(ctx, IsDictionary(col), s);
      DictionaryRow(ctx, schema, a, c1, c2, c, ty, col, s);
    }
  }

  lemma DoDictionaryGet(ctx: Context, a: Fn, c: Fn, d: Fn, s: State, t: State, col: nat, slot: Option<nat>, x: Datum)
                        returns (u: State)
    requires At(ctx, a, c, s, t) && IsAdd(c, DictionaryGetI(c.regs, col, slot), d) &&
      (slot.Some? ==> a.slots <= slot.value)
    requires col < |ctx.columns| && ctx.columns[col].Dictionary? && ctx.row < |ctx.columns[col].ids|
    requires ctx.columns[col].ids[ctx.row] < |ctx.columns[col].dict| &&
      x == ctx.columns[col].dict[ctx.columns[col].ids[ctx.row]]
    ensures At(ctx, a, d, s, u) && Ev(u, Reg(c.regs)) == Some(x.data) && forall o: Operand | Below(o, c.regs) ::
      Ev(u, o) == Ev(t, o)
    ensures slot.Some? ==> slot.value in u.slots && u.slots[slot.value] == x.len
  {
    u := Def(PutOpt(t, slot, x.len), c.regs, x.data);
    ArrivesIns(ctx, a, c, s, t, DictionaryGetI(c.regs, col, slot), 1, u);
  }

  lemma DictionaryRow(ctx: Context, schema: seq<Type>, a: Fn, c1: Fn, c2: Fn, c: Fn, ty: Type, col: nat, s: State)
    requires Starts(ctx, schema, a, s) && a.Open() && Known(schema, ty, col) && IsDictionary(col)(ctx) &&
      DictionaryCode(a, c1, c2, c, ty, col)
    ensures Delivers(ctx, a, c, [DictionaryGoal(schema, a, c2, ty, col)], s)
  {
    hide At, Fn.Add, Fn.Ins, Fn.Open, Delivers;
    assert ctx.columns[col].Valid(schema[col]);
    var x := ctx.columns[col].DatumAt(ty, ctx.row);
    Ready(ctx, a, s);
    var t := s;
    if ty == Varchar {
      AtSlots(ctx, a, a, s, s, 1);
      t := DoStore(ctx, a, a.NewSlots(1), c1, s, t, a.slots, Const(VInt(0)), VInt(0));
      t := DoDictionaryGet(ctx, a, c1, c2, s, t, col, Some(a.slots), x);
      t := DoLoad(ctx, a, c2, c, s, t, a.slots, x.len);
    } else {
      t := DoDictionaryGet(ctx, a, a, c, s, t, col, None, x);
    }
    DatumMet(ctx, schema, DictionaryGoal(schema, a, c2, ty, col), ty, col, t, x);
    DeliversOne(ctx, a, c, DictionaryGoal(schema, a, c2, ty, col), s, t);
  }

  /** A visible cell may come from anywhere as long as it reads the same. */
  lemma DatumMet(ctx: Context, schema: seq<Type>, k: Goal, ty: Type, col: nat, t: State, x: Datum)
    requires ContextOk(ctx, schema) && Known(schema, ty, col) && k.t == ty && k.sem == Raw(schema, ty, col)
    requires k.v.isNull == Const(VBool(false)) && Ev(t, k.v.data) == Some(x.data)
    requires if ty == Varchar then Ev(t, k.v.length) == Some(x.len) else k.v.length == NO_LENGTH
    requires Typed(ty, x.data) && LenOk(ty, x.data, x.len)
    requires var d := ctx.columns[col].DatumAt(ty, ctx.row); Visible(ty, x.data, x.len) == Visible(ty, d.data, d.len)
    ensures Met(ctx, k, t)
  {
  }

  /** The flat arm: strings are found between two offsets. */
  ghost predicate FlatCode(a: Fn, c1: Fn, c2: Fn, c3: Fn, c: Fn, ty: Type, col: nat) {
    if ty == Varchar then
      && IsAdd(a, OffsetLoadI(a.regs, col, false), c1)
      && IsAdd(c1, OffsetLoadI(c1.regs, col, true), c2)
      && IsAdd(c2, SubI(c2.regs, Reg(c1.regs), Reg(a.regs)), c3)
      && IsAdd(c3, ColumnPtrI(c3.regs, col, Reg(a.regs)), c)
    else
      c1 == a && c2 == a && c3 == a && IsAdd(a, ColumnLoadI(a.regs, col), c)
  }

  ghost function FlatGoal(schema: seq<Type>, c2: Fn, c3: Fn, ty: Type, col: nat): Goal {
    Goal(ty, CodeGenValue(Reg(c3.regs), Const(VBool(false)), if ty == Varchar then Reg(c2.regs) else NO_LENGTH),
      Raw(schema, ty, col))
  }

  lemma FlatComputes(schema: seq<Type>, a: Fn, c1: Fn, c2: Fn, c3: Fn, c: Fn, ty: Type, col: nat, pre: seq<Goal>)
    requires a.Open() && Known(schema, ty, col) && Assume(Otherwise(IsDictionary(col))) in pre &&
      FlatCode(a, c1, c2, c3, c, ty, col)
    ensures ComputesFrom(schema, a, c, pre, [FlatGoal(schema, c2, c3, ty, col)])
  {
    hide Met, At, Grown, Delivers, Fn.Add, Fn.Ins, Fn.Open, Raw;
    GrownStart(a);
    if ty == Varchar {
      GrownStep(a, a, OffsetLoadI(a.regs, col, false), c1);
      GrownStep(a, c1, OffsetLoadI(c1.regs, col, true), c2);
      GrownStep(a, c2, SubI(c2.regs, Reg(c1.regs), Reg(a.regs)), c3);
      GrownStep(a, c3, ColumnPtrI(c3.regs, col, Reg(a.regs)), c);
    } else {
      GrownStep(a, a, ColumnLoadI(a.regs, col), c);
    }
    var k := FlatGoal(schema, c2, c3, ty, col);
    forall ctx, s | Starts(ctx, schema, a, s) && MetAll(ctx, pre, s) ensures Delivers(ctx, a, c, [k], s) {
      InMet(ctx, Assume(Otherwise(IsDictionary(col))), pre, s);
      AssumeMet(ctx, Otherwise(IsDictionary(col)), s);
      FlatRow(ctx, schema, a, c1, c2, c3, c, ty, col, s);
    }
  }

  lemma FlatRow(ctx: Context, schema: seq<Type>, a: Fn, c1: Fn, c2: Fn, c3: Fn, c: Fn, ty: Type, col: nat, s: State)
    requires Starts(ctx, schema, a, s) && a.Open() && Known(schema, ty, col) && !IsDictionary(col)(ctx) &&
      FlatCode(a, c1, c2, c3, c, ty, col)
    ensures Delivers(ctx, a, c, [FlatGoal(schema, c2, c3, ty, col)], s)
  {
    assert ctx.columns[col].Valid(schema[col]) && |ctx.columns| == |schema|;
    var x := ctx.columns[col].DatumAt(ty, ctx.row);
    Ready(ctx, a, s);
    hide At, Fn.Add, Fn.Ins, Fn.Open, Delivers, ContextOk;
    if ty == Varchar {
      FlatStringRow(ctx, schema, a, c1, c2, c3, c, ty, col, s, x);
    } else {
      var t := Do(ctx, a, a, c, s, s, ColumnLoadI(a.regs, col), x.data);
      FlatMet(ctx, schema, c2, c3, ty, col, t, x);
      DeliversOne(ctx, a, c, FlatGoal(schema, c2, c3, ty, col), s, t);
    }
  }

  /** A flat string: both offsets, their difference, the pointer. */
  lemma DoOffset(ctx: Context, a: Fn, c: Fn, d: Fn, s: State, t: State, col: nat, next: bool) returns (u: State)
    requires At(ctx, a, c, s, t) && IsAdd(c, OffsetLoadI(c.regs, col, next), d) && col < |ctx.columns| &&
      ctx.columns[col].FlatString?
    requires var row := if next then ctx.row + 1 else ctx.row; row < |ctx.columns[col].offsets|
    ensures At(ctx, a, d, s, u) && d.regs == c.regs + 1
    ensures Defined(c, t, u, VInt(ctx.columns[col].offsets[if next then ctx.row + 1 else ctx.row]))
  {
    hide At, IsAdd;
    u := Do(ctx, a, c, d, s, t, OffsetLoadI(c.regs, col, next),
      VInt(ctx.columns[col].offsets[if next then ctx.row + 1 else ctx.row]));
  }

  lemma DoSub(ctx: Context, a: Fn, c: Fn, d: Fn, s: State, t: State, o: Operand, p: Operand, x: int, y: int)
              returns (u: State)
    requires At(ctx, a, c, s, t) && IsAdd(c, SubI(c.regs, o, p), d) && Ev(t, o) == Some(VInt(x)) &&
      Ev(t, p) == Some(VInt(y))
    ensures At(ctx, a, d, s, u) && Defined(c, t, u, VInt(x - y)) && d.regs == c.regs + 1
  {
    hide At, IsAdd;
    u := Do(ctx, a, c, d, s, t, SubI(c.regs, o, p), VInt(x - y));
  }

  lemma DoColumnPtr(ctx: Context, a: Fn, c: Fn, d: Fn, s: State, t: State, col: nat, o: Operand, x: nat)
                    returns (u: State)
    requires At(ctx, a, c, s, t) && IsAdd(c, ColumnPtrI(c.regs, col, o), d) && col < |ctx.columns| &&
      ctx.columns[col].FlatString?
    requires Ev(t, o) == Some(VInt(x)) && x <= |ctx.columns[col].buffer|
    ensures At(ctx, a, d, s, u) && Defined(c, t, u, VPtr(ctx.columns[col].buffer[x..])) && d.regs == c.regs + 1
  {
    hide At, IsAdd;
    u := Do(ctx, a, c, d, s, t, ColumnPtrI(c.regs, col, o), VPtr(ctx.columns[col].buffer[x..]));
  }

  lemma FlatStringRow(ctx: Context, schema: seq<Type>, a: Fn, c1: Fn, c2: Fn, c3: Fn, c: Fn, ty: Type, col: nat,
                      s: State, x: Datum)
    requires Starts(ctx, schema, a, s) && a.Open() && Known(schema, ty, col) && !IsDictionary(col)(ctx) &&
      FlatCode(a, c1, c2, c3, c, ty, col) && ty == Varchar
    requires x == ctx.columns[col].DatumAt(ty, ctx.row) && ctx.columns[col].Valid(ty)
    ensures Delivers(ctx, a, c, [FlatGoal(schema, c2, c3, ty, col)], s)
  {
    Ready(ctx, a, s);
    hide At, Fn.Add, Fn.Ins, Fn.Open, Delivers, ContextOk, IsAdd, Exec, FlatGoal;
    var v := ctx.columns[col];
    assert SpanOk(v.buffer, v.offsets, ctx.row);
    var from, to := v.offsets[ctx.row], v.offsets[ctx.row + 1];
    var t := DoOffset(ctx, a, a, c1, s, s, col, false);
    t := DoOffset(ctx, a, c1, c2, s, t, col, true);
    t := DoSub(ctx, a, c2, c3, s, t, Reg(c1.regs), Reg(a.regs), to, from);
    t := DoColumnPtr(ctx, a, c3, c, s, t, col, Reg(a.regs), from);
    FlatMet(ctx, schema, c2, c3, ty, col, t, x);
    DeliversOne(ctx, a, c, FlatGoal(schema, c2, c3, ty, col), s, t);
  }

  lemma FlatMet(ctx: Context, schema: seq<Type>, c2: Fn, c3: Fn, ty: Type, col: nat, t: State, x: Datum)
    requires ContextOk(ctx, schema) && Known(schema, ty, col) && x == ctx.columns[col].DatumAt(ty, ctx.row)
    requires Ev(t, Reg(c3.regs)) == Some(x.data) && (ty == Varchar ==> Ev(t, Reg(c2.regs)) == Some(x.len))
    ensures Met(ctx, FlatGoal(schema, c2, c3, ty, col), t)
  {
    DatumMet(ctx, schema, FlatGoal(schema, c2, c3, ty, col), ty, col, t, x);
  }

  // ---------- the whole column access ----------

  /** The snapshots of a column access. */
  datatype FieldCode = FieldCode(b: Fn, d: Diamond, x1: Fn, x2: Fn, y1: Fn, y2: Fn, y3: Fn) {
    ghost predicate Arms(ty: Type, col: nat) {
      && IsAdd(b, IsDictionaryI(b.regs, col), d.base) && d.cond == Reg(b.regs) && d.c == d.Created()
      && d.c.cur < |d.c.blocks| && DictionaryCode(d.TrueStart(), x1, x2, d.t1, ty, col)
      && d.t1.cur < |d.t1.blocks| && FlatCode(d.FalseStart(), y1, y2, y3, d.f1, ty, col)
      && d.f1.cur < |d.f1.blocks| && d.M < |d.f1.blocks|
    }

    function X(ty: Type): CodeGenValue {
      CodeGenValue(Reg(d.base.regs), Const(VBool(false)), if ty == Varchar then Reg(x2.regs) else NO_LENGTH)
    }

    function Y(ty: Type): CodeGenValue {
      CodeGenValue(Reg(y3.regs), Const(VBool(false)), if ty == Varchar then Reg(y2.regs) else NO_LENGTH)
    }

    function Done(ty: Type): Fn
      requires d.f1.cur < |d.f1.blocks| && d.M < |d.f1.blocks|
    {
      d.Done(X(ty), Y(ty), Parts(false, ty == Varchar))
    }

    function Merged(ty: Type): CodeGenValue {
      CodeGenValue(Reg(d.f1.regs), Const(VBool(false)), if ty == Varchar then Reg(d.f1.regs + 1) else NO_LENGTH)
    }
  }

  lemma CellComputes(schema: seq<Type>, f: FieldCode, ty: Type, col: nat)
    requires f.d.base.Open() && Known(schema, ty, col) && f.Arms(ty, col) && f.b.regs < f.d.base.regs
    ensures ComputesFrom(schema, f.d.base, f.Done(ty), [Flag(Reg(f.b.regs), IsDictionary(col))],
      [Goal(ty, f.Merged(ty), Raw(schema, ty, col))])
  {
    hide Grows, Fn.Open, Sub, Met, Delivers, DictionaryCode, FlatCode;
    var d := f.d;
    var pick := IsDictionary(col);
    var pre := [Flag(Reg(f.b.regs), pick)];
    Starts4(d);
    ComputesSame(schema, d.Created(), pre);
    DictionaryComputes(schema, d.TrueStart(), f.x1, f.x2, d.t1, ty, col, pre + [Assume(pick)]);
    TrueBuilt(d);
    FlatComputes(schema, d.FalseStart(), f.y1, f.y2, f.y3, d.f1, ty, col, pre + [Assume(Otherwise(pick))]);
    forall ctx, s | ContextOk(ctx, schema) && MetAll(ctx, pre, s) ensures Ev(s, d.cond) == Some(VBool(pick(ctx))) {
      assert Met(ctx, pre[0], s);
      FlagMet(ctx, d.cond, pick, s);
    }
    DiamondComputes(schema, d, pre, pre, pick, DictionaryGoal(schema, d.TrueStart(), f.x2, ty, col),
      FlatGoal(schema, f.y2, f.y3, ty, col),
      Parts(false, ty == Varchar), Goal(ty, f.Merged(ty), Raw(schema, ty, col)));
  }

  lemma TestDictionary(schema: seq<Type>, b: Fn, c: Fn, col: nat)
    requires b.Open() && col < |schema| && IsAdd(b, IsDictionaryI(b.regs, col), c)
    ensures Computes(schema, b, c, [Flag(Reg(b.regs), IsDictionary(col))])
  {
    hide Met, At, Grown, Delivers, Fn.Add, Fn.Open;
    GrownStart(b);
    GrownStep(b, b, IsDictionaryI(b.regs, col), c);
    forall ctx, s | Starts(ctx, schema, b, s) ensures Delivers(ctx, b, c, [Flag(Reg(b.regs), IsDictionary(col))], s) {
      Ready(ctx, b, s);
      var t := Do(ctx, b, b, c, s, s, IsDictionaryI(b.regs, col), VBool(IsDictionary(col)(ctx)));
      FlagMet(ctx, Reg(b.regs), IsDictionary(col), t);
      DeliversOne(ctx, b, c, Flag(Reg(b.regs), IsDictionary(col)), s, t);
    }
  }

  /** The null bit turns the cell into a SQL value. */
  lemma BitNullComputes(schema: seq<Type>, b: Fn, c: Fn, ty: Type, col: nat, g: Goal, k: Goal)
    requires b.Open() && Known(schema, ty, col) && BoundedAll([g], b.regs) && g.t == ty && g.sem == Raw(schema, ty, col)
    requires IsAdd(b, IsBitNullI(b.regs, col), c) && k.t == ty && k.v == CodeGenValue(g.v.data, Reg(b.regs), g.v.length)
    requires forall ctx | ContextOk(ctx, schema) :: k.sem(ctx) == ctx.columns[col].SqlAt(ty, ctx.row)
    ensures ComputesFrom(schema, b, c, [g], [k])
  {
    hide Met, At, Grown, Delivers, Fn.Add, Fn.Open;
    GrownStart(b);
    GrownStep(b, b, IsBitNullI(b.regs, col), c);
    assert Bounded([g][0].v, b.regs);
    forall ctx, s | Starts(ctx, schema, b, s) && MetAll(ctx, [g], s) ensures Delivers(ctx, b, c, [k], s) {
      OneMet(ctx, g, s, b.regs);
      Ready(ctx, b, s);
      var t := Do(ctx, b, b, c, s, s, IsBitNullI(b.regs, col), VBool(ctx.columns[col].nulls[ctx.row]));
      CellMet(ctx, schema, ty, col, g, k, b.regs, s, t);
      DeliversOne(ctx, b, c, k, s, t);
    }
  }

  lemma CellMet(ctx: Context, schema: seq<Type>, ty: Type, col: nat, g: Goal, k: Goal, r: nat, s: State, t: State)
    requires ContextOk(ctx, schema) && Known(schema, ty, col) && Bounded(g.v, r) && g.t == ty &&
      g.sem == Raw(schema, ty, col)
    requires Met(ctx, g, s) && Keeps(r, s, t) && Ev(t, Reg(r)) == Some(VBool(ctx.columns[col].nulls[ctx.row]))
    requires k.t == ty && k.v == CodeGenValue(g.v.data, Reg(r), g.v.length)
    requires k.sem(ctx) == ctx.columns[col].SqlAt(ty, ctx.row)
    ensures Met(ctx, k, t)
  {
    assert Holds(g.t, g.v, g.sem(ctx), s);
  }

  lemma FieldComputes(schema: seq<Type>, f: FieldCode, c: Fn, ty: Type, col: nat, k: Goal)
    requires f.b.Open() && Known(schema, ty, col) && f.Arms(ty, col) &&
      IsAdd(f.Done(ty), IsBitNullI(f.Done(ty).regs, col), c)
    requires k.t == ty && k.v == CodeGenValue(Reg(f.d.f1.regs), Reg(f.Done(ty).regs), f.Merged(ty).length)
    requires forall ctx | ContextOk(ctx, schema) :: k.sem(ctx) == ctx.columns[col].SqlAt(ty, ctx.row)
    ensures Computes(schema, f.b, c, [k])
  {
    hide Met, Delivers, Grown, Fn.Open, FieldCode.Done;
    var flag, cell := Flag(Reg(f.b.regs), IsDictionary(col)), Goal(ty, f.Merged(ty), Raw(schema, ty, col));
    TestDictionary(schema, f.b, f.d.base, col);
    GrownIsOpen(f.b, f.d.base);
    CellComputes(schema, f, ty, col);
    ComputesMore(schema, f.b, f.d.base, f.Done(ty), [flag], [cell]);
    GrownIsOpen(f.b, f.Done(ty));
    BitNullComputes(schema, f.Done(ty), c, ty, col, cell, k);
    ComputesMore(schema, f.b, f.Done(ty), c, [cell], [k]);
  }
}
