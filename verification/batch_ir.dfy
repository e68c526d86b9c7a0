/** Straight-line code over arrays, one cell per row of a batch: the form the batch compiler emits. A name stands
    for an array, or through a phi for one of two. The machine is strict: reading an array nothing has written yet,
    or one of the wrong length or type, leaves it stuck. A kernel that reports an error ends the batch. */
module BatchIR {
  import opened SqlValues
  import opened Selection
  import opened BatchDivision

  /** The names of the arrays holding a value; the length array is there for strings only. */
  datatype Vec = Vec(data: nat, isNull: nat, length: nat)

  datatype Instr =
    | FillNullI(dst: nat, flag: bool)
    | FillLiteralI(t: Type, out: Vec, v: Val, isNull: bool)
    // column access: the two arms of the branch on the encoding, and the phi that joins them
    | GetDictionaryI(t: Type, col: nat, out: Vec)
    | GetVectorI(t: Type, col: nat, out: Vec)
    | PhiI(dst: nat, col: nat, dictionary: nat, flat: nat)
    | BitsToNullI(col: nat, dst: nat)
    // kernels that overwrite their first operand
    | NotI(a: nat)
    | EqualBoolI(a: nat, toCmp: bool)
    | OrI(a: nat, b: nat)
    | AndI(a: nat, b: nat)
    | AndExprI(l: Vec, r: Vec)
    | OrExprI(l: Vec, r: Vec)
    | ArithI(arith: ArithOp, t: Type, l: Vec, r: Vec)
    | DivideI(arith: ArithOp, t: Type, l: Vec, r: Vec)
    | IfI(t: Type, cond: Vec, l: Vec, r: Vec)
    | CoalesceI(t: Type, l: Vec, r: Vec)
    // kernels that write separate arrays
    | CmpI(cmp: CmpOp, t: Type, l: Vec, r: Vec, dst: nat)
    | InI(t: Type, x: Vec, list: seq<Vec>, out: Vec)
    | SwitchI(t: Type, conds: seq<Vec>, results: seq<Vec>, els: Vec, out: Vec)
    | CallFnI(sig: FnSig, variant: bool, args: seq<Vec>, anyNull: nat, out: Vec, retNull: Option<nat>,
      overflow: Option<nat>)

  /** A call of the batch function: the batch and the row to compute each cell from. */
  datatype Call = Call(batch: Batch, rows: seq<int>)

  ghost predicate CallOk(x: Call, schema: seq<Type>) {
    BatchOk(x.batch, schema) && Within(x.rows, x.batch.rowCount) && DivisionOk(x.batch.kernels)
  }

  datatype Mem = Mem(arrays: map<nat, seq<Val>>, aliases: map<nat, nat>)

  datatype Outcome = Stuck | Failed | Ran(mem: Mem)

  // ---------- reading and writing arrays ----------

  function Loc(m: Mem, name: nat): nat {
    if name in m.aliases then m.aliases[name] else name
  }

  function Get(m: Mem, name: nat): Option<seq<Val>> {
    if Loc(m, name) in m.arrays then Some(m.arrays[Loc(m, name)]) else None
  }

  function Put(m: Mem, name: nat, cells: seq<Val>): Mem {
    m.(arrays := m.arrays[Loc(m, name) := cells])
  }

  /** An array of flags. */
  function Flags(m: Mem, name: nat, n: nat): (r: Option<seq<bool>>)
    ensures r.Some? ==> |r.value| == n
  {
    match Get(m, name)
    case Some(a) =>
      if |a| == n && forall i | 0 <= i < n :: a[i].VBool? then Some(seq(n, i requires 0 <= i < n => a[i].b)) else None
    case None => None
  }

  function Cells(bs: seq<bool>): seq<Val> {
    seq(|bs|, i requires 0 <= i < |bs| => VBool(bs[i]))
  }

  function PutFlags(m: Mem, name: nat, bs: seq<bool>): Mem {
    Put(m, name, Cells(bs))
  }

  predicate DataOk(t: Type, data: seq<Val>, lens: seq<Val>, n: nat) {
    |data| == n && |lens| == n && forall i | 0 <= i < n :: Typed(t, data[i]) && lens[i].VInt?
  }

  /** The data cells of a value, with their lengths. */
  function Data(m: Mem, t: Type, v: Vec, n: nat): (r: Option<seq<Datum>>)
    ensures r.Some? ==> |r.value| == n && forall i | 0 <= i < n :: Typed(t, r.value[i].data) && r.value[i].len.VInt?
  {
    match (Get(m, v.data), if t == Varchar then Get(m, v.length) else Some(seq(n, i => VInt(0))))
    case (Some(data), Some(lens)) =>
      if DataOk(t, data, lens, n) then Some(seq(n, i requires 0 <= i < n => Datum(data[i], lens[i]))) else None
    case _ => None
  }

  function PutData(m: Mem, t: Type, v: Vec, ds: seq<Datum>): Mem {
    var m1 := Put(m, v.data, seq(|ds|, i requires 0 <= i < |ds| => ds[i].data));
    if t == Varchar then Put(m1, v.length, seq(|ds|, i requires 0 <= i < |ds| => ds[i].len)) else m1
  }

  /** A value: data and null flags together. */
  function Read(m: Mem, t: Type, v: Vec, n: nat): (r: Option<seq<Arg>>)
    ensures r.Some? ==> |r.value| == n && forall i | 0 <= i < n :: Typed(t, r.value[i].data) && r.value[i].len.VInt?
  {
    match (Data(m, t, v, n), Flags(m, v.isNull, n))
    case (Some(ds), Some(bs)) => Some(seq(n, i requires 0 <= i < n => Arg(ds[i].data, ds[i].len, bs[i])))
    case _ => None
  }

  function Write(m: Mem, t: Type, v: Vec, args: seq<Arg>): Mem {
    PutFlags(PutData(m, t, v, seq(|args|, i requires 0 <= i < |args| => Datum(args[i].data, args[i].len))),
      v.isNull, seq(|args|, i requires 0 <= i < |args| => args[i].isNull))
  }

  /** Several values of their own types, row by row. */
  function ReadAll(m: Mem, ts: seq<Type>, vs: seq<Vec>, n: nat): (r: Option<seq<seq<Arg>>>)
    requires |ts| == |vs|
    ensures r.Some? ==> |r.value| == |vs| && forall j | 0 <= j < |vs| :: Read(m, ts[j], vs[j], n) == Some(r.value[j])
  {
    if |vs| == 0 then Some([])
    else
      var k := |vs| - 1;
      match (ReadAll(m, ts[..k], vs[..k], n), Read(m, ts[k], vs[k], n))
      case (Some(front), Some(last)) => Some(front + [last])
      case _ => None
  }

  // ---------- kernels, row by row ----------

  predicate CompareDatum(k: Kernels, op: CmpOp, t: Type, l: Datum, r: Datum)
    requires Typed(t, l.data) && Typed(t, r.data)
  {
    match t
    case Varchar =>
      var a, b := Content(l.data, l.len), Content(r.data, r.len);
      if op == EQ then a == b else if op == NEQ then a != b else CompareInt(op, k.order(a, b), 0)
    case Boolean => l.data == r.data
    case _ => CompareInt(op, l.data.i, r.data.i)
  }

  function AndArg(l: Arg, r: Arg): Arg
    requires l.data.VBool? && r.data.VBool?
  {
    Arg(VBool(l.data.b && r.data.b), VInt(0), (l.isNull && r.isNull) || (l.isNull && r.data.b) ||
      (l.data.b && r.isNull))
  }

  function OrArg(l: Arg, r: Arg): Arg
    requires l.data.VBool? && r.data.VBool?
  {
    Arg(VBool(l.data.b || r.data.b), VInt(0), (l.isNull && r.isNull) || (l.isNull && !r.data.b) ||
      (r.isNull && !l.data.b))
  }

  /** Both not null and the same. */
  predicate Matches(t: Type, x: Arg, y: Arg) {
    !x.isNull && !y.isNull && Visible(t, x.data, x.len) == Visible(t, y.data, y.len)
  }

  predicate AnyMatch(t: Type, x: Arg, list: seq<Arg>) {
    exists c | 0 <= c < |list| :: Matches(t, x, list[c])
  }

  /** The first true condition decides. */
  function FirstTrue(conds: seq<Arg>, results: seq<Arg>, els: Arg, j: nat): Arg
    requires |conds| == |results| && j <= |conds| && forall k | 0 <= k < |conds| :: conds[k].data.VBool?
    decreases |conds| - j
  {
    if j == |conds| then els
    else if conds[j].data.b && !conds[j].isNull then results[j]
    else FirstTrue(conds, results, els, j + 1)
  }

  function At(args: seq<seq<Arg>>, i: nat): seq<Arg>
    requires forall j | 0 <= j < |args| :: i < |args[j]|
  {
    seq(|args|, j requires 0 <= j < |args| => args[j][i])
  }

  /** What a registered function's batch kernel makes of one row. */
  function CallRow(k: Kernels, sig: FnSig, variant: bool, args: seq<Arg>, flag: bool): FnOut
    requires |sig.params| == |args|
  {
    k.call(sig, variant, Flatten(sig.params, args, PassesNulls(sig, variant))
      + if variant || sig.discipline == InputDataAndNullAndReturnNull then [] else [VBool(flag)])
  }

  /** Cell `j` from row `rows[j]` of a column. */
  function GetColumn(x: Call, t: Type, col: nat, out: Vec, m: Mem): Outcome
    requires col < |x.batch.columns|
  {
    var c := x.batch.columns[col];
    if c.Valid(t) && Within(x.rows, |c.nulls|)
    then Ran(PutData(m, t, out, seq(|x.rows|, j requires 0 <= j < |x.rows| => c.DatumAt(t, x.rows[j]))))
    else Stuck
  }

  function ColumnNulls(x: Call, col: nat): (r: seq<bool>)
    requires col < |x.batch.columns| && Within(x.rows, |x.batch.columns[col].nulls|)
    ensures |r| == |x.rows|
  {
    seq(|x.rows|, j requires 0 <= j < |x.rows| => x.batch.columns[col].nulls[x.rows[j]])
  }

  function GetNulls(x: Call, col: nat, dst: nat, m: Mem): Outcome {
    if col < |x.batch.columns| && Within(x.rows, |x.batch.columns[col].nulls|)
    then Ran(PutFlags(m, dst, ColumnNulls(x, col)))
    else Stuck
  }

  function EqualFlags(m: Mem, n: nat, a: nat, toCmp: bool): Outcome {
    match Flags(m, a, n)
    case Some(p) => Ran(PutFlags(m, a, seq(n, j requires 0 <= j < n => p[j] == toCmp)))
    case None => Stuck
  }

  function Ored(p: seq<bool>, q: seq<bool>): (r: seq<bool>)
    requires |p| == |q|
    ensures |r| == |p| && forall j | 0 <= j < |p| :: r[j] == (p[j] || q[j])
  {
    seq(|p|, j requires 0 <= j < |p| => p[j] || q[j])
  }

  function Anded(p: seq<bool>, q: seq<bool>): (r: seq<bool>)
    requires |p| == |q|
    ensures |r| == |p| && forall j | 0 <= j < |p| :: r[j] == (p[j] && q[j])
  {
    seq(|p|, j requires 0 <= j < |p| => p[j] && q[j])
  }

  function OrFlags(m: Mem, n: nat, a: nat, b: nat): Outcome {
    match (Flags(m, a, n), Flags(m, b, n))
    case (Some(p), Some(q)) => Ran(PutFlags(m, a, Ored(p, q)))
    case _ => Stuck
  }

  function AndFlags(m: Mem, n: nat, a: nat, b: nat): Outcome {
    match (Flags(m, a, n), Flags(m, b, n))
    case (Some(p), Some(q)) => Ran(PutFlags(m, a, Anded(p, q)))
    case _ => Stuck
  }

  function AndExpr(m: Mem, n: nat, l: Vec, r: Vec): Outcome {
    match (Read(m, Boolean, l, n), Read(m, Boolean, r, n))
    case (Some(p), Some(q)) => Ran(Write(m, Boolean, l, seq(n, j requires 0 <= j < n => AndArg(p[j], q[j]))))
    case _ => Stuck
  }

  function OrExpr(m: Mem, n: nat, l: Vec, r: Vec): Outcome {
    match (Read(m, Boolean, l, n), Read(m, Boolean, r, n))
    case (Some(p), Some(q)) => Ran(Write(m, Boolean, l, seq(n, j requires 0 <= j < n => OrArg(p[j], q[j]))))
    case _ => Stuck
  }

  predicate AllTyped(t: Type, ds: seq<Datum>) {
    forall j | 0 <= j < |ds| :: Typed(t, ds[j].data)
  }

  function Results(k: Kernels, op: ArithOp, t: Type, p: seq<Datum>, q: seq<Datum>): (r: seq<Datum>)
    requires IsInteger(t) && |p| == |q| && AllTyped(t, p) && AllTyped(t, q)
    ensures |r| == |p|
  {
    seq(|p|, j requires 0 <= j < |p| && p[j].data.VInt? && q[j].data.VInt? => Datum(VInt(k.arith(op, t, p[j].data.i,
      q[j].data.i).0), VInt(0)))
  }

  function Arithmetic(k: Kernels, m: Mem, n: nat, op: ArithOp, t: Type, l: Vec, r: Vec): Outcome {
    if !IsInteger(t) then Stuck
    else
      match (Data(m, t, l, n), Data(m, t, r, n))
      case (Some(p), Some(q)) => Ran(PutData(m, t, l, Results(k, op, t, p, q)))
      case _ => Stuck
  }

  predicate ZeroDivisor(q: seq<Datum>, nulls: seq<bool>)
    requires |q| == |nulls|
  {
    exists j | 0 <= j < |q| :: !nulls[j] && q[j].data == VInt(0)
  }

  function Quotients(k: Kernels, op: ArithOp, t: Type, p: seq<Datum>, q: seq<Datum>, nulls: seq<bool>): (r: seq<Datum>)
    requires IsInteger(t) && |p| == |q| == |nulls| && AllTyped(t, p) && AllTyped(t, q)
    ensures |r| == |p|
  {
    var results := Results(k, op, t, p, q);
    seq(|p|, j requires 0 <= j < |p| => if nulls[j] then Datum(p[j].data, VInt(0)) else results[j])
  }

  /** Rows already null are skipped; a zero divisor in any other is an error. */
  function Divide(k: Kernels, m: Mem, n: nat, op: ArithOp, t: Type, l: Vec, r: Vec): Outcome {
    if !IsInteger(t) then Stuck
    else
      match (Data(m, t, l, n), Data(m, t, r, n), Flags(m, l.isNull, n))
      case (Some(p), Some(q), Some(nulls)) =>
        if ZeroDivisor(q, nulls) then Failed else Ran(PutData(m, t, l, Quotients(k, op, t, p, q, nulls)))
      case _ => Stuck
  }

  function Choose(m: Mem, n: nat, t: Type, cond: Vec, l: Vec, r: Vec): Outcome {
    match (Read(m, Boolean, cond, n), Read(m, t, l, n), Read(m, t, r, n))
    case (Some(c), Some(p), Some(q)) =>
      Ran(Write(m, t, l, seq(n, j requires 0 <= j < n => if c[j].data.b && !c[j].isNull then p[j] else q[j])))
    case _ => Stuck
  }

  function FillGaps(m: Mem, n: nat, t: Type, l: Vec, r: Vec): Outcome {
    match (Read(m, t, l, n), Read(m, t, r, n))
    case (Some(p), Some(q)) => Ran(Write(m, t, l, seq(n, j requires 0 <= j < n => if p[j].isNull then q[j] else p[j])))
    case _ => Stuck
  }

  function Compared(k: Kernels, op: CmpOp, t: Type, p: seq<Datum>, q: seq<Datum>): (r: seq<bool>)
    requires |p| == |q| && AllTyped(t, p) && AllTyped(t, q)
    ensures |r| == |p|
  {
    seq(|p|, j requires 0 <= j < |p| && Typed(t, p[j].data) &&
      Typed(t, q[j].data) => CompareDatum(k, op, t, p[j], q[j]))
  }

  function Compare(k: Kernels, m: Mem, n: nat, op: CmpOp, t: Type, l: Vec, r: Vec, dst: nat): Outcome {
    match (Data(m, t, l, n), Data(m, t, r, n))
    case (Some(p), Some(q)) => Ran(PutFlags(m, dst, Compared(k, op, t, p, q)))
    case _ => Stuck
  }

  function Members(t: Type, p: seq<Arg>, qs: seq<seq<Arg>>): (r: seq<Arg>)
    requires forall c | 0 <= c < |qs| :: |qs[c]| == |p|
    ensures |r| == |p|
  {
    seq(|p|, j requires 0 <= j < |p| => Arg(VBool(AnyMatch(t, p[j], At(qs, j))), VInt(0), false))
  }

  /** True on a match, else false: never null. */
  function InList(m: Mem, n: nat, t: Type, v: Vec, list: seq<Vec>, out: Vec): Outcome {
    match (Read(m, t, v, n), ReadAll(m, seq(|list|, _ => t), list, n))
    case (Some(p), Some(qs)) =>
      Ran(Write(m, Boolean, out, Members(t, p, qs)))
    case _ => Stuck
  }

  predicate Conditions(cs: seq<seq<Arg>>, n: nat) {
    forall c | 0 <= c < |cs| :: |cs[c]| == n && forall j | 0 <= j < n :: cs[c][j].data.VBool?
  }

  function Cases(cs: seq<seq<Arg>>, rs: seq<seq<Arg>>, e: seq<Arg>): (r: seq<Arg>)
    requires |cs| == |rs| && Conditions(cs, |e|) && forall c | 0 <= c < |rs| :: |rs[c]| == |e|
    ensures |r| == |e|
  {
    seq(|e|, j requires 0 <= j < |e| => FirstTrue(At(cs, j), At(rs, j), e[j], 0))
  }

  /** Values of one type each. */
  function ReadSame(m: Mem, t: Type, vs: seq<Vec>, n: nat): (r: Option<seq<seq<Arg>>>)
    ensures r == ReadAll(m, seq(|vs|, _ => t), vs, n)
    ensures r.Some? ==>
      |r.value| == |vs| && forall c | 0 <= c < |vs| :: |r.value[c]| == n && forall j | 0 <= j < n ::
      Typed(t, r.value[c][j].data)
  {
    var r := ReadAll(m, seq(|vs|, _ => t), vs, n);
    assert r.Some? ==> forall c | 0 <= c < |vs| :: Read(m, t, vs[c], n) == Some(r.value[c]);
    r
  }

  function SwitchCase(m: Mem, n: nat, t: Type, conds: seq<Vec>, results: seq<Vec>, els: Vec, out: Vec): Outcome {
    if |conds| != |results| then Stuck
    else
      match (ReadSame(m, Boolean, conds, n), ReadSame(m, t, results, n), Read(m, t, els, n))
      case (Some(cs), Some(rs), Some(e)) => Ran(Write(m, t, out, Cases(cs, rs, e)))
      case _ => Stuck
  }

  function CallRows(k: Kernels, sig: FnSig, variant: bool, vs: seq<seq<Arg>>, flags: seq<bool>): (r: seq<FnOut>)
    requires |sig.params| == |vs| && forall c | 0 <= c < |vs| :: |vs[c]| == |flags|
    ensures |r| == |flags|
  {
    seq(|flags|, j requires 0 <= j < |flags| => CallRow(k, sig, variant, At(vs, j), flags[j]))
  }

  function CallKernel(k: Kernels, m: Mem, n: nat, sig: FnSig, variant: bool, args: seq<Vec>, anyNull: nat, out: Vec,
                      retNull: Option<nat>, overflow: Option<nat>): Outcome {
    if |sig.params| != |args| then Stuck
    else
      match (ReadAll(m, sig.params, args, n), Flags(m, anyNull, n))
      case (Some(vs), Some(flags)) =>
        Ran(PutOuts(m, sig.ret, CallRows(k, sig, variant, vs, flags), out, retNull, overflow))
      case _ => Stuck
  }

  function OutDatums(t: Type, outs: seq<FnOut>): seq<Datum> {
    seq(|outs|, j requires 0 <= j < |outs| => Datum(outs[j].data, VInt(if t == Varchar then outs[j].len else 0)))
  }

  function OutNulls(outs: seq<FnOut>): seq<bool> {
    seq(|outs|, j requires 0 <= j < |outs| => outs[j].isNull)
  }

  function OutOverflows(outs: seq<FnOut>): seq<bool> {
    seq(|outs|, j requires 0 <= j < |outs| => outs[j].overflow)
  }

  function PutOpt(m: Mem, name: Option<nat>, bs: seq<bool>): Mem {
    match name case Some(a) => PutFlags(m, a, bs) case None => m
  }

  function PutOuts(m: Mem, t: Type, outs: seq<FnOut>, out: Vec, retNull: Option<nat>, overflow: Option<nat>): Mem {
    PutOpt(PutOpt(PutData(m, t, out, OutDatums(t, outs)), retNull, OutNulls(outs)), overflow, OutOverflows(outs))
  }

  function Exec(x: Call, i: Instr, m: Mem): Outcome {
    var n, k := |x.rows|, x.batch.kernels;
    match i
    case FillNullI(dst, flag) => Ran(PutFlags(m, dst, seq(n, _ => flag)))
    case FillLiteralI(t, out, v, isNull) =>
      Ran(Write(m, t, out, seq(n, _ => Arg(v, VInt(if v.VPtr? then |v.bytes| else 0), isNull))))
    case GetDictionaryI(t, col, out) =>
      if col < |x.batch.columns| && x.batch.columns[col].Dictionary? then GetColumn(x, t, col, out, m) else Ran(m)
    case GetVectorI(t, col, out) =>
      if col < |x.batch.columns| && !x.batch.columns[col].Dictionary? then GetColumn(x, t, col, out, m) else Ran(m)
    case PhiI(dst, col, dictionary, flat) =>
      if col >= |x.batch.columns| then Stuck
      else Ran(m.(aliases := m.aliases[dst := if x.batch.columns[col].Dictionary? then dictionary else flat]))
    case BitsToNullI(col, dst) => GetNulls(x, col, dst, m)
    case NotI(a) => EqualFlags(m, n, a, false)
    case EqualBoolI(a, b) => EqualFlags(m, n, a, b)
    case OrI(a, b) => OrFlags(m, n, a, b)
    case AndI(a, b) => AndFlags(m, n, a, b)
    case AndExprI(l, r) => AndExpr(m, n, l, r)
    case OrExprI(l, r) => OrExpr(m, n, l, r)
    case ArithI(op, t, l, r) => Arithmetic(k, m, n, op, t, l, r)
    case DivideI(op, t, l, r) => Divide(BatchKernels(k), m, n, op, t, l, r)
    case IfI(t, cond, l, r) => Choose(m, n, t, cond, l, r)
    case CoalesceI(t, l, r) => FillGaps(m, n, t, l, r)
    case CmpI(op, t, l, r, dst) => Compare(k, m, n, op, t, l, r, dst)
    case InI(t, v, list, out) => InList(m, n, t, v, list, out)
    case SwitchI(t, conds, results, els, out) => SwitchCase(m, n, t, conds, results, els, out)
    case CallFnI(sig, variant, args, anyNull, out, retNull, overflow) =>
      CallKernel(k, m, n, sig, variant, args, anyNull, out, retNull, overflow)
  }

  function Run(x: Call, code: seq<Instr>, m: Mem): Outcome {
    if |code| == 0 then Ran(m)
    else
      match Run(x, code[..|code| - 1], m)
      case Ran(u) => Exec(x, code[|code| - 1], u)
      case other => other
  }

  /** The rest of the code, if the machine gets there. */
  function Follow(x: Call, o: Outcome, rest: seq<Instr>): Outcome {
    if o.Ran? then Run(x, rest, o.mem) else o
  }

  lemma {:induction false} RunAppend(x: Call, a: seq<Instr>, b: seq<Instr>, m: Mem)
    ensures Run(x, a + b, m) == Follow(x, Run(x, a, m), b)
  {
    hide Exec;
    if b == [] {
      assert a + b == a;
    } else {
      var k := |b| - 1;
      assert (a + b)[..|a + b| - 1] == a + b[..k];
      RunAppend(x, a, b[..k], m);
    }
  }
}
