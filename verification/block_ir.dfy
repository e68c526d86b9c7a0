/** The control-flow graphs the expression compiler emits, and the strict machine that runs them or gets stuck. */
module BlockIR {
  import opened SqlValues
  import opened Expressions

  datatype Operand = Const(v: Val) | Reg(r: nat)

  datatype Instr =
    | AndI(dst: nat, a: Operand, b: Operand)
    | OrI(dst: nat, a: Operand, b: Operand)
    | NotI(dst: nat, a: Operand)
    | CmpI(dst: nat, cmp: CmpOp, a: Operand, b: Operand)
    | SubI(dst: nat, a: Operand, b: Operand)
    | StoreI(slot: nat, a: Operand)
    | LoadI(dst: nat, slot: nat)
    | PhiI(dst: nat, incoming: seq<(nat, Operand)>)
    // column access at the current row
    | IsDictionaryI(dst: nat, col: nat)
    | DictionaryGetI(dst: nat, col: nat, lenSlot: Option<nat>)
    | ColumnLoadI(dst: nat, col: nat)
    | OffsetLoadI(dst: nat, col: nat, next: bool)
    | ColumnPtrI(dst: nat, col: nat, offset: Operand)
    | IsBitNullI(dst: nat, col: nat)
    // kernel calls
    | CallCompareI(dst: nat, cmp: CmpOp, a: Operand, b: Operand)
    | CallArithI(dst: nat, arith: ArithOp, ty: Type, flag: nat, a: Operand, b: Operand)
    | CallStrEqualI(dst: nat, l: Operand, lLen: Operand, r: Operand, rLen: Operand)
    | CallStrCompareI(dst: nat, l: Operand, lLen: Operand, r: Operand, rLen: Operand)
    | CallFnI(dst: nat, sig: FnSig, variant: bool, args: seq<Operand>, lenSlot: Option<nat>, nullSlot: Option<nat>,
      overflowSlot: Option<nat>)

  datatype Term = Br(target: nat) | CondBr(cond: Operand, thn: nat, els: nat)
      | Ret(data: Operand, len: Operand, isNull: Operand)

  datatype Block = Block(instrs: seq<Instr>, term: Option<Term>)

  /** The machine is at instruction `idx` of `block`, which it entered from `prev`. */
  datatype State = State(block: nat, idx: nat, prev: nat, regs: map<nat, Val>, slots: map<nat, Val>)

  function Ev(s: State, o: Operand): Option<Val> {
    match o
    case Const(v) => Some(v)
    case Reg(r) => if r in s.regs then Some(s.regs[r]) else None
  }

  function EvAll(s: State, os: seq<Operand>): Option<seq<Val>> {
    if |os| == 0 then Some([])
    else
      var n := |os| - 1;
      var front, last := EvAll(s, os[..n]), Ev(s, os[n]);
      if front.Some? && last.Some? then Some(front.value + [last.value]) else None
  }

  /** The state after defining `dst` and moving on. */
  function Def(s: State, dst: nat, v: Val): State {
    s.(idx := s.idx + 1, regs := s.regs[dst := v])
  }

  function Put(s: State, slot: nat, v: Val): State {
    s.(slots := s.slots[slot := v])
  }

  /** A kernel writes through the out-pointers it is given. */
  function PutOpt(s: State, slot: Option<nat>, v: Val): State {
    match slot case Some(x) => Put(s, x, v) case None => s
  }

  function Incoming(incoming: seq<(nat, Operand)>, from: nat): Option<Operand> {
    if |incoming| == 0 then None
    else if incoming[0].0 == from then Some(incoming[0].1)
    else Incoming(incoming[1..], from)
  }

  function BoolOf(s: State, o: Operand): Option<bool> {
    match Ev(s, o) case Some(VBool(b)) => Some(b) case _ => None
  }

  function IntOf(s: State, o: Operand): Option<int> {
    match Ev(s, o) case Some(VInt(i)) => Some(i) case _ => None
  }

  /** A string operand pair; garbage denotes an arbitrary string, not a stuck machine. */
  function StrOf(s: State, data: Operand, len: Operand): Option<string> {
    match (Ev(s, data), Ev(s, len))
    case (Some(d), Some(l)) => if d.VPtr? && l.VInt? then Some(Content(d, l)) else None
    case _ => None
  }

  /** The equality kernel goes by the first string's length only: it compares that many bytes from the second
      pointer on, up to the first difference, and does not care where the second string ends. It may run off the
      memory there. */
  function StrEquals(x: string, bytes: string): Option<bool> {
    if x <= bytes then Some(true) else if bytes <= x then None else Some(false)
  }

  function Exec(ctx: Context, i: Instr, s: State): Option<State> {
    match i
    case AndI(dst, a, b) =>
      (match (BoolOf(s, a), BoolOf(s, b)) case (Some(x), Some(y)) => Some(Def(s, dst, VBool(x && y))) case _ => None)
    case OrI(dst, a, b) =>
      (match (BoolOf(s, a), BoolOf(s, b)) case (Some(x), Some(y)) => Some(Def(s, dst, VBool(x || y))) case _ => None)
    case NotI(dst, a) =>
      (match BoolOf(s, a) case Some(x) => Some(Def(s, dst, VBool(!x))) case None => None)
    case CmpI(dst, cmp, a, b) =>
      (match (Ev(s, a), Ev(s, b))
       case (Some(VInt(x)), Some(VInt(y))) => Some(Def(s, dst, VBool(CompareInt(cmp, x, y))))
       case (Some(VBool(x)), Some(VBool(y))) => if cmp == EQ then Some(Def(s, dst, VBool(x == y))) else None
       case _ => None)
    case SubI(dst, a, b) =>
      (match (IntOf(s, a), IntOf(s, b)) case (Some(x), Some(y)) => Some(Def(s, dst, VInt(x - y))) case _ => None)
    case StoreI(slot, a) =>
      (match Ev(s, a) case Some(v) => Some(Put(s, slot, v).(idx := s.idx + 1)) case None => None)
    case LoadI(dst, slot) =>
      if slot in s.slots then Some(Def(s, dst, s.slots[slot])) else None
    case PhiI(dst, incoming) =>
      (match Incoming(incoming, s.prev)
       case Some(o) => (match Ev(s, o) case Some(v) => Some(Def(s, dst, v)) case None => None)
       case None => None)
    case IsDictionaryI(dst, col) =>
      if col < |ctx.columns| then Some(Def(s, dst, VBool(ctx.columns[col].Dictionary?))) else None
    case DictionaryGetI(dst, col, lenSlot) =>
      if col < |ctx.columns| && ctx.columns[col].Dictionary? && ctx.row < |ctx.columns[col].ids| &&
         ctx.columns[col].ids[ctx.row] < |ctx.columns[col].dict|
      then
        var d := ctx.columns[col].dict[ctx.columns[col].ids[ctx.row]];
        Some(Def(PutOpt(s, lenSlot, d.len), dst, d.data))
      else None
    case ColumnLoadI(dst, col) =>
      if col < |ctx.columns| && ctx.columns[col].Flat? && ctx.row < |ctx.columns[col].values|
      then Some(Def(s, dst, ctx.columns[col].values[ctx.row])) else None
    case OffsetLoadI(dst, col, next) =>
      var row := if next then ctx.row + 1 else ctx.row;
      if col < |ctx.columns| && ctx.columns[col].FlatString? && row < |ctx.columns[col].offsets|
      then Some(Def(s, dst, VInt(ctx.columns[col].offsets[row]))) else None
    case ColumnPtrI(dst, col, offset) =>
      (match IntOf(s, offset)
       case Some(x) =>
         if col < |ctx.columns| && ctx.columns[col].FlatString? && 0 <= x <= |ctx.columns[col].buffer|
         then Some(Def(s, dst, VPtr(ctx.columns[col].buffer[x..]))) else None
       case None => None)
    case IsBitNullI(dst, col) =>
      if col < |ctx.columns| && ctx.row < |ctx.columns[col].nulls|
      then Some(Def(s, dst, VBool(ctx.columns[col].nulls[ctx.row]))) else None
    case CallCompareI(dst, op, a, b) =>
      (match (IntOf(s, a), IntOf(s, b))
       case (Some(x), Some(y)) => Some(Def(s, dst, VBool(CompareInt(op, x, y)))) case _ => None)
    case CallArithI(dst, op, ty, flag, a, b) =>
      (match (IntOf(s, a), IntOf(s, b))
       case (Some(x), Some(y)) =>
         var (r, isNull) := ctx.kernels.arith(op, ty, x, y);
         Some(Def(if TakesNullFlag(op) then Put(s, flag, VBool(isNull)) else s, dst, VInt(r)))
       case _ => None)
    case CallStrEqualI(dst, l, lLen, r, rLen) =>
      (match (StrOf(s, l, lLen), Ev(s, r), IntOf(s, rLen))
       case (Some(x), Some(VPtr(bytes)), Some(_)) =>
         (match StrEquals(x, bytes) case Some(same) => Some(Def(s, dst, VBool(same))) case None => None)
       case _ => None)
    case CallStrCompareI(dst, l, lLen, r, rLen) =>
      (match (StrOf(s, l, lLen), StrOf(s, r, rLen))
       case (Some(x), Some(y)) => Some(Def(s, dst, VInt(ctx.kernels.order(x, y)))) case _ => None)
    case CallFnI(dst, sig, variant, args, lenSlot, nullSlot, overflowSlot) =>
      (match EvAll(s, args)
       case Some(vs) =>
         var out := ctx.kernels.call(sig, variant, vs);
         Some(Def(PutOpt(PutOpt(PutOpt(s, lenSlot, VInt(out.len)), nullSlot, VBool(out.isNull)), overflowSlot,
           VBool(out.overflow)), dst, out.data))
       case None => None)
  }

  function Enter(s: State, target: nat): State {
    s.(block := target, idx := 0, prev := s.block)
  }

  /** One step; `None` when the machine is stuck, or stopped at a return or an open block's end. */
  function Step(ctx: Context, blocks: seq<Block>, s: State): Option<State> {
    if s.block >= |blocks| then None
    else
      var b := blocks[s.block];
      if s.idx < |b.instrs| then Exec(ctx, b.instrs[s.idx], s)
      else if s.idx > |b.instrs| then None
      else
        match b.term
        case Some(Br(t)) => Some(Enter(s, t))
        case Some(CondBr(c, t, f)) =>
          (match BoolOf(s, c) case Some(x) => Some(Enter(s, if x then t else f)) case None => None)
        case _ => None
  }

  function Machine(ctx: Context, blocks: seq<Block>): State -> Option<State> {
    s => Step(ctx, blocks, s)
  }

  function Iterate(step: State -> Option<State>, s: State, n: nat): Option<State>
    decreases n
  {
    if n == 0 then Some(s)
    else match step(s) case Some(t) => Iterate(step, t, n - 1) case None => None
  }

  ghost predicate Reaches(ctx: Context, blocks: seq<Block>, s: State, t: State) {
    exists n: nat :: Iterate(Machine(ctx, blocks), s, n) == Some(t)
  }

  lemma {:induction false} IterateAdd(step: State -> Option<State>, s: State, n: nat, t: State, m: nat)
    requires Iterate(step, s, n) == Some(t)
    ensures Iterate(step, s, n + m) == Iterate(step, t, m)
    decreases n
  {
    if n > 0 {
      IterateAdd(step, step(s).value, n - 1, t, m);
    }
  }

  lemma {:induction false} IterateStops(step: State -> Option<State>, s: State, n: nat, t: State, m: nat, u: State)
    requires Iterate(step, s, n) == Some(t) && step(t).None?
    requires Iterate(step, s, m) == Some(u) && step(u).None?
    ensures t == u
    decreases n
  {
    if n > 0 && m > 0 {
      IterateStops(step, step(s).value, n - 1, t, m - 1, u);
    }
  }

  lemma {:induction false} IterateMore(less: State -> Option<State>, more: State -> Option<State>, s: State, n: nat)
    requires forall x: State | less(x).Some? :: more(x) == less(x)
    requires Iterate(less, s, n).Some?
    ensures Iterate(more, s, n) == Iterate(less, s, n)
    decreases n
  {
    if n > 0 {
      IterateMore(less, more, less(s).value, n - 1);
    }
  }

  lemma ReachesSelf(ctx: Context, blocks: seq<Block>, s: State)
    ensures Reaches(ctx, blocks, s, s)
  {
    assert Iterate(Machine(ctx, blocks), s, 0) == Some(s);
  }

  lemma ReachesStep(ctx: Context, blocks: seq<Block>, s: State, t: State)
    requires Step(ctx, blocks, s) == Some(t)
    ensures Reaches(ctx, blocks, s, t)
  {
    var f := Machine(ctx, blocks);
    assert f(s) == Some(t);
    assert Iterate(f, t, 0) == Some(t);
    assert Iterate(f, s, 1) == Some(t);
  }

  lemma ReachesTrans(ctx: Context, blocks: seq<Block>, s: State, t: State, u: State)
    requires Reaches(ctx, blocks, s, t) && Reaches(ctx, blocks, t, u)
    ensures Reaches(ctx, blocks, s, u)
  {
    var f := Machine(ctx, blocks);
    var n: nat :| Iterate(f, s, n) == Some(t);
    var m: nat :| Iterate(f, t, m) == Some(u);
    IterateAdd(f, s, n, t, m);
    assert Iterate(f, s, n + m) == Some(u);
  }

  /** The machine has no choice: it can stop in one state only. */
  lemma StopsOnce(ctx: Context, blocks: seq<Block>, s: State, t: State, u: State)
    requires Reaches(ctx, blocks, s, t) && Step(ctx, blocks, t).None?
    requires Reaches(ctx, blocks, s, u) && Step(ctx, blocks, u).None?
    ensures t == u
  {
    var f := Machine(ctx, blocks);
    var n: nat :| Iterate(f, s, n) == Some(t);
    var m: nat :| Iterate(f, s, m) == Some(u);
    IterateStops(f, s, n, t, m, u);
  }

  // ---------- growing code ----------

  /** Code only grows: finished blocks stay, open blocks gain instructions or a terminator. */
  ghost predicate Sub(a: seq<Block>, b: seq<Block>) {
    && |a| <= |b|
    && forall k | 0 <= k < |a| :: a[k] == b[k] || (a[k].term.None? && a[k].instrs <= b[k].instrs)
  }

  lemma SubTrans(a: seq<Block>, b: seq<Block>, c: seq<Block>)
    requires Sub(a, b) && Sub(b, c)
    ensures Sub(a, c)
  {
  }

  lemma ReachesSub(ctx: Context, a: seq<Block>, b: seq<Block>, s: State, t: State)
    requires Sub(a, b) && Reaches(ctx, a, s, t)
    ensures Reaches(ctx, b, s, t)
  {
    var f, g := Machine(ctx, a), Machine(ctx, b);
    var n: nat :| Iterate(f, s, n) == Some(t);
    forall x: State | f(x).Some? ensures g(x) == f(x) {
      assert Step(ctx, b, x) == Step(ctx, a, x);
    }
    IterateMore(f, g, s, n);
    assert Iterate(g, s, n) == Some(t);
  }
}
