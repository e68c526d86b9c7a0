/** The kernels of each kind of node compute it: run on arrays that hold the operands, they leave the node's value
    in arrays of their own or in the left operand's, and do not touch what earlier visits still need. */
module BatchProofs {
  import opened SqlValues
  import opened Expressions
  import opened Selection
  import opened BatchIR
  import opened BatchDivision
  import opened BatchSteps
  import opened BatchMeaning

  /** A column of `t` values, one per row. */
  ghost predicate ColumnOf(schema: seq<Type>, g: Goal, t: Type) {
    g.Goal? && g.t == t && forall x | CallOk(x, schema) :: |g.sem(x)| == |x.rows|
  }

  predicate After(g: Goal, lo: nat, hi: nat) {
    lo <= g.lo <= g.hi <= hi
  }

  lemma OneHolds(x: Call, schema: seq<Type>, m: Mem, at: nat, g: Goal)
    requires Starts(x, schema, m, at, [g])
    ensures Holds(x, m, g)
  {
    assert Holds(x, m, [g][0]);
  }

  lemma TwoHold(x: Call, schema: seq<Type>, m: Mem, at: nat, g: Goal, h: Goal)
    requires Starts(x, schema, m, at, [g, h])
    ensures Holds(x, m, g) && Holds(x, m, h)
  {
    assert Holds(x, m, [g, h][0]) && Holds(x, m, [g, h][1]);
  }

  lemma ThreeHold(x: Call, schema: seq<Type>, m: Mem, at: nat, g: Goal, h: Goal, k: Goal)
    requires Starts(x, schema, m, at, [g, h, k])
    ensures Holds(x, m, g) && Holds(x, m, h) && Holds(x, m, k)
  {
    assert Holds(x, m, [g, h, k][0]) && Holds(x, m, [g, h, k][1]) && Holds(x, m, [g, h, k][2]);
  }

  // ---------- NOT, IS NULL ----------

  lemma NotComputes(schema: seq<Type>, g: Goal, k: Goal, at: nat)
    requires ColumnOf(schema, g, Boolean) && ColumnOf(schema, k, Boolean) && k == g.(sem := k.sem) && After(g, g.lo, at)
    requires forall x, j | CallOk(x, schema) && 0 <= j < |x.rows| :: k.sem(x)[j] == KleeneNot(g.sem(x)[j])
    ensures ComputesFrom(schema, [g], [NotI(g.v.data)], g.lo, at, at, [k], Never())
  {
    hide Kept, Unused, Holds;
    forall x, m | Starts(x, schema, m, at, [g]) ensures Delivers(x, m, Run(x, [NotI(g.v.data)], m), g.lo, at, [k],
      false) {
      OneHolds(x, schema, m, at, g);
      NotRuns(x, m, g, k, at);
    }
  }

  lemma NotRuns(x: Call, m: Mem, g: Goal, k: Goal, at: nat)
    requires g.Goal? && g.t == Boolean && k.Goal? && k == g.(sem := k.sem) && Holds(x, m, g) && Unused(m, at)
    requires |g.sem(x)| == |k.sem(x)| == |x.rows| && forall j | 0 <= j < |x.rows| ::
      k.sem(x)[j] == KleeneNot(g.sem(x)[j])
    ensures Delivers(x, m, Run(x, [NotI(g.v.data)], m), g.lo, at, [k], false)
  {
    hide Kept, Unused, Flags, Read;
    var n := |x.rows|;
    var ds, bs := BooleanParts(m, g.v, n, g.sem(x));
    RunOne(x, NotI(g.v.data), m);
    var out := seq(n, j requires 0 <= j < n => ds[j] == false);
    var u := PutFlags(m, g.v.data, out);
    PutFlagsGet(m, g.v.data, out, n);
    PutFlagsOther(m, g.v.data, out, g.v.isNull, n);
    PutKept(m, g.v.data, Cells(out), g.lo, at);
    FlagsDenote(u, g.v, n, out, bs, k.sem(x));
  }

  function IsNullCode(v: Vec, at: nat): seq<Instr> {
    [EqualBoolI(v.isNull, true), FillNullI(at, false)]
  }

  lemma IsNullComputes(schema: seq<Type>, g: Goal, k: Goal, at: nat)
    requires g.Goal? && ColumnOf(schema, g, g.t) && ColumnOf(schema, k, Boolean) && After(g, g.lo, at)
    requires k == Goal(Boolean, Vec(g.v.isNull, at, at), g.lo, at + 1, k.sem)
    requires forall x, j | CallOk(x, schema) && 0 <= j < |x.rows| :: k.sem(x)[j] == Value(VBool(g.sem(x)[j].Null?))
    ensures ComputesFrom(schema, [g], IsNullCode(g.v, at), g.lo, at, at + 1, [k], Never())
  {
    hide Kept, Unused, Holds, IsNullCode;
    forall x, m | Starts(x, schema, m, at, [g]) ensures Delivers(x, m, Run(x, IsNullCode(g.v, at), m), g.lo, at + 1,
      [k], false) {
      OneHolds(x, schema, m, at, g);
      IsNullRuns(x, m, g, k, at);
    }
  }

  lemma IsNullRuns(x: Call, m: Mem, g: Goal, k: Goal, at: nat)
    requires g.Goal? && k.Goal? && Holds(x, m, g) && Unused(m, at) && g.hi <= at
    requires k == Goal(Boolean, Vec(g.v.isNull, at, at), g.lo, at + 1, k.sem)
    requires |g.sem(x)| == |k.sem(x)| == |x.rows| && forall j | 0 <= j < |x.rows| ::
      k.sem(x)[j] == Value(VBool(g.sem(x)[j].Null?))
    ensures Delivers(x, m, Run(x, IsNullCode(g.v, at), m), g.lo, at + 1, [k], false)
  {
    hide Kept, Flags, Read;
    var n := |x.rows|;
    var ds, bs := DenotesParts(m, g.t, g.v, n, g.sem(x));
    FreshNames(m, at, at);
    RunTwo(x, EqualBoolI(g.v.isNull, true), FillNullI(at, false), m);
    var out, none := seq(n, j requires 0 <= j < n => bs[j] == true), seq(n, _ => false);
    var m1 := PutFlags(m, g.v.isNull, out);
    var u := PutFlags(m1, at, none);
    PutFlagsGet(m, g.v.isNull, out, n);
    PutFlagsGet(m1, at, none, n);
    PutFlagsOther(m1, at, none, g.v.isNull, n);
    PutKept(m, g.v.isNull, Cells(out), g.lo, at);
    PutKept(m1, at, Cells(none), g.lo, at);
    KeptTrans(m, m1, u, g.lo, g.lo);
    FlagsDenote(u, k.v, n, out, none, k.sem(x));
  }

  // ---------- AND, OR ----------

  predicate Logic(op: BinaryOp) {
    op == And || op == Or
  }

  function LogicCode(op: BinaryOp, l: Vec, r: Vec): seq<Instr> {
    [if op == And then AndExprI(l, r) else OrExprI(l, r)]
  }

  function LogicArg(op: BinaryOp, l: Arg, r: Arg): Arg
    requires l.data.VBool? && r.data.VBool?
  {
    if op == And then AndArg(l, r) else OrArg(l, r)
  }

  /** The flag arithmetic is Kleene's, whatever stands behind a null. */
  lemma LogicDenotes(k: Kernels, op: BinaryOp, l: Arg, r: Arg)
    requires Logic(op) && ArgOk(Boolean, l) && ArgOk(Boolean, r)
    ensures ArgOk(Boolean, LogicArg(op, l, r))
    ensures SqlOf(Boolean, LogicArg(op, l, r)) == BinarySql(k, op, Boolean, SqlOf(Boolean, l), SqlOf(Boolean, r))
  {
  }

  lemma LogicComputes(schema: seq<Type>, op: BinaryOp, g: Goal, h: Goal, k: Goal, at: nat)
    requires Logic(op) && ColumnOf(schema, g, Boolean) && ColumnOf(schema, h, Boolean) && ColumnOf(schema, k, Boolean)
    requires k == g.(sem := k.sem) && g.lo <= g.hi && After(h, g.hi, at)
    requires forall x, j | CallOk(x, schema) && 0 <= j < |x.rows| ::
      k.sem(x)[j] == BinarySql(x.batch.kernels, op, Boolean, g.sem(x)[j], h.sem(x)[j])
    ensures ComputesFrom(schema, [g, h], LogicCode(op, g.v, h.v), g.lo, at, at, [k], Never())
  {
    hide Kept, Unused, Holds, LogicCode, BinarySql;
    forall x, m | Starts(x, schema, m, at, [g, h]) ensures Delivers(x, m, Run(x, LogicCode(op, g.v, h.v), m), g.lo, at,
      [k], false) {
      TwoHold(x, schema, m, at, g, h);
      LogicRuns(x, m, op, g, h, k, at);
    }
  }

  lemma LogicRuns(x: Call, m: Mem, op: BinaryOp, g: Goal, h: Goal, k: Goal, at: nat)
    requires Logic(op) && g.Goal? && h.Goal? && k.Goal? && g.t == h.t == Boolean && k == g.(sem := k.sem)
    requires Holds(x, m, g) && Holds(x, m, h) && Unused(m, at) && |g.sem(x)| == |h.sem(x)| == |k.sem(x)| == |x.rows|
    requires forall j | 0 <= j < |x.rows| ::
      k.sem(x)[j] == BinarySql(x.batch.kernels, op, Boolean, g.sem(x)[j], h.sem(x)[j])
    ensures Delivers(x, m, Run(x, LogicCode(op, g.v, h.v), m), g.lo, at, [k], false)
  {
    hide Kept, Unused, Read, Write, BinarySql;
    var n := |x.rows|;
    var p := DenotesArgs(m, Boolean, g.v, n, g.sem(x));
    var q := DenotesArgs(m, Boolean, h.v, n, h.sem(x));
    RunOne(x, LogicCode(op, g.v, h.v)[0], m);
    forall j | 0 <= j < n ensures ArgOk(Boolean, LogicArg(op, p[j], q[j])) &&
      SqlOf(Boolean, LogicArg(op, p[j], q[j])) == k.sem(x)[j] {
      LogicDenotes(x.batch.kernels, op, p[j], q[j]);
    }
    if op == And {
      Written(x, m, k, seq(n, j requires 0 <= j < n => AndArg(p[j], q[j])), g.lo, at);
    } else {
      Written(x, m, k, seq(n, j requires 0 <= j < n => OrArg(p[j], q[j])), g.lo, at);
    }
  }

  // ---------- comparisons and arithmetic ----------

  function EitherNull(a: seq<Sql>, b: seq<Sql>): (r: seq<bool>)
    requires |a| == |b|
    ensures |r| == |a|
  {
    seq(|a|, j requires 0 <= j < |a| => a[j].Null? || b[j].Null?)
  }

  /** The null flags of both operands joined into the left one's. Their data stays. */
  ghost predicate NullsJoined(x: Call, m: Mem, u: Mem, g: Goal, h: Goal, at: nat)
    requires g.Goal? && h.Goal?
  {
    && Kept(m, u, g.lo) && Unused(u, at) && Apart(u, g.t, g.v, g.lo, g.hi)
    && Data(u, g.t, g.v, |x.rows|) == Data(m, g.t, g.v, |x.rows|) &&
      Data(u, h.t, h.v, |x.rows|) == Data(m, h.t, h.v, |x.rows|)
    && |g.sem(x)| == |h.sem(x)| == |x.rows|
    && Flags(u, g.v.isNull, |x.rows|) == Some(EitherNull(g.sem(x), h.sem(x)))
  }

  lemma JoinNulls(x: Call, m: Mem, g: Goal, h: Goal, at: nat) returns (u: Mem)
    requires g.Goal? && h.Goal? && Holds(x, m, g) && Holds(x, m, h) && Unused(m, at) && g.hi <= h.lo
    ensures Exec(x, OrI(g.v.isNull, h.v.isNull), m) == Ran(u) && NullsJoined(x, m, u, g, h, at)
  {
    hide Kept, Unused, Flags, Read, Data, Exec;
    var n := |x.rows|;
    var _, bs := DenotesParts(m, g.t, g.v, n, g.sem(x));
    var _, cs := DenotesParts(m, h.t, h.v, n, h.sem(x));
    ExecOr(x, g.v.isNull, h.v.isNull, m, bs, cs);
    var either := Ored(bs, cs);
    assert either == EitherNull(g.sem(x), h.sem(x));
    u := PutFlags(m, g.v.isNull, either);
    PutFlagsGet(m, g.v.isNull, either, n);
    SameData(m, u, g.t, g.v, n);
    SameData(m, u, h.t, h.v, n);
    PutKept(m, g.v.isNull, Cells(either), g.lo, at);
  }

  function CompareCode(op: CmpOp, t: Type, l: Vec, r: Vec, at: nat): seq<Instr> {
    [OrI(l.isNull, r.isNull), CmpI(op, t, l, r, at)]
  }

  lemma CompareDenotes(k: Kernels, op: CmpOp, t: Type, l: Arg, r: Arg)
    requires t != Boolean && ArgOk(t, l) && ArgOk(t, r)
    ensures CompareSql(k, op, SqlOf(t, l), SqlOf(t, r))
         == if l.isNull || r.isNull then Null else Value(VBool(CompareDatum(k, op, t, Datum(l.data, l.len),
           Datum(r.data, r.len))))
  {
  }

  lemma CompareComputes(schema: seq<Type>, op: CmpOp, t: Type, g: Goal, h: Goal, k: Goal, at: nat)
    requires t != Boolean && ColumnOf(schema, g, t) && ColumnOf(schema, h, t) && ColumnOf(schema, k, Boolean)
    requires k == Goal(Boolean, Vec(at, g.v.isNull, at), g.lo, at + 1, k.sem) && g.lo <= g.hi && After(h, g.hi, at)
    requires forall x, j | CallOk(x, schema) && 0 <= j < |x.rows| ::
      k.sem(x)[j] == CompareSql(x.batch.kernels, op, g.sem(x)[j], h.sem(x)[j])
    ensures ComputesFrom(schema, [g, h], CompareCode(op, t, g.v, h.v, at), g.lo, at, at + 1, [k], Never())
  {
    hide Kept, Unused, Holds, CompareCode, CompareSql;
    forall x, m | Starts(x, schema, m, at, [g, h]) ensures Delivers(x, m, Run(x, CompareCode(op, t, g.v, h.v, at), m),
      g.lo, at + 1, [k], false) {
      TwoHold(x, schema, m, at, g, h);
      CompareRuns(x, m, op, g, h, k, at);
    }
  }

  lemma CompareRuns(x: Call, m: Mem, op: CmpOp, g: Goal, h: Goal, k: Goal, at: nat)
    requires g.Goal? && h.Goal? && k.Goal? && g.t == h.t != Boolean && Holds(x, m, g) && Holds(x, m, h) &&
      Unused(m, at) && g.hi <= h.lo <= at
    requires k == Goal(Boolean, Vec(at, g.v.isNull, at), g.lo, at + 1, k.sem) &&
      |g.sem(x)| == |h.sem(x)| == |k.sem(x)| == |x.rows|
    requires forall j | 0 <= j < |x.rows| :: k.sem(x)[j] == CompareSql(x.batch.kernels, op, g.sem(x)[j], h.sem(x)[j])
    ensures Delivers(x, m, Run(x, CompareCode(op, g.t, g.v, h.v, at), m), g.lo, at + 1, [k], false)
  {
    hide Kept, Flags, Read, Data, CompareSql, CompareDatum, Exec;
    var n := |x.rows|;
    var p, bs := DenotesParts(m, g.t, g.v, n, g.sem(x));
    var q, cs := DenotesParts(m, h.t, h.v, n, h.sem(x));
    var m1 := JoinNulls(x, m, g, h, at);
    FreshNames(m1, at, at);
    RunTwo(x, OrI(g.v.isNull, h.v.isNull), CmpI(op, g.t, g.v, h.v, at), m);
    ExecCmp(x, op, g.t, g.v, h.v, at, m1, p, q);
    var out := Compared(x.batch.kernels, op, g.t, p, q);
    var either := EitherNull(g.sem(x), h.sem(x));
    var u := PutFlags(m1, at, out);
    PutFlagsGet(m1, at, out, n);
    PutFlagsOther(m1, at, out, g.v.isNull, n);
    PutKept(m1, at, Cells(out), g.lo, at + 1);
    KeptTrans(m, m1, u, g.lo, g.lo);
    forall j | 0 <= j < n ensures k.sem(x)[j] == if either[j] then Null else Value(VBool(out[j])) {
      CompareDenotes(x.batch.kernels, op, g.t, Arg(p[j].data, p[j].len, bs[j]), Arg(q[j].data, q[j].len, cs[j]));
    }
    FlagsDenote(u, k.v, n, out, either, k.sem(x));
  }

  function ArithCode(op: ArithOp, t: Type, l: Vec, r: Vec): seq<Instr> {
    [OrI(l.isNull, r.isNull), if TakesNullFlag(op) then DivideI(op, t, l, r) else ArithI(op, t, l, r)]
  }

  ghost predicate ZeroDivides(a: seq<Sql>, b: seq<Sql>) {
    exists j | 0 <= j < |a| && j < |b| :: a[j].Value? && b[j] == Value(VInt(0))
  }

  ghost function Zeros(g: Goal, h: Goal): Call -> bool
    requires g.Goal? && h.Goal?
  {
    (x: Call) => ZeroDivides(g.sem(x), h.sem(x))
  }

  lemma ArithComputes(schema: seq<Type>, op: ArithOp, t: Type, g: Goal, h: Goal, k: Goal, at: nat)
    requires (op == ADD || op == SUB || op == MUL) && IsInteger(t) && ColumnOf(schema, g, t) &&
      ColumnOf(schema, h, t) && ColumnOf(schema, k, t)
    requires k == g.(sem := k.sem) && g.lo <= g.hi && After(h, g.hi, at)
    requires forall x, j | CallOk(x, schema) && 0 <= j < |x.rows| ::
      k.sem(x)[j] == ArithSql(x.batch.kernels, op, t, g.sem(x)[j], h.sem(x)[j])
    ensures ComputesFrom(schema, [g, h], ArithCode(op, t, g.v, h.v), g.lo, at, at, [k], Never())
  {
    hide Kept, Unused, Holds, ArithCode, ArithSql;
    forall x, m | Starts(x, schema, m, at, [g, h]) ensures Delivers(x, m, Run(x, ArithCode(op, t, g.v, h.v), m), g.lo,
      at, [k], false) {
      TwoHold(x, schema, m, at, g, h);
      ArithRuns(x, m, op, g, h, k, at);
    }
  }

  lemma ResultAt(k: Kernels, op: ArithOp, t: Type, p: seq<Datum>, q: seq<Datum>)
    requires IsInteger(t) && |p| == |q| && AllTyped(t, p) && AllTyped(t, q)
    ensures DatumsOk(t, Results(k, op, t, p, q))
    ensures forall j | 0 <= j < |p| :: p[j].data.VInt? && q[j].data.VInt?
    ensures forall j | 0 <= j < |p| ::
      Results(k, op, t, p, q)[j].data == VInt(k.arith(op, t, p[j].data.i, q[j].data.i).0)
  {
    assert forall j | 0 <= j < |p| :: Typed(t, p[j].data) && Typed(t, q[j].data);
  }

  lemma ArithDenotes(k: Kernels, op: ArithOp, t: Type, l: Arg, r: Arg)
    requires (op == ADD || op == SUB || op == MUL) && IsInteger(t) && ArgOk(t, l) && ArgOk(t, r)
    ensures ArithSql(k, op, t, SqlOf(t, l), SqlOf(t, r)) ==
      if l.isNull || r.isNull then Null else Value(VInt(k.arith(op, t, l.data.i, r.data.i).0))
  {
  }

  lemma ArithRuns(x: Call, m: Mem, op: ArithOp, g: Goal, h: Goal, k: Goal, at: nat)
    requires (op == ADD || op == SUB || op == MUL) && g.Goal? && h.Goal? && k.Goal? && g.t == h.t && IsInteger(g.t) &&
      k == g.(sem := k.sem)
    requires Holds(x, m, g) && Holds(x, m, h) && Unused(m, at) && g.hi <= h.lo <= at &&
      |g.sem(x)| == |h.sem(x)| == |k.sem(x)| == |x.rows|
    requires forall j | 0 <= j < |x.rows| :: k.sem(x)[j] == ArithSql(x.batch.kernels, op, g.t, g.sem(x)[j], h.sem(x)[j])
    ensures Delivers(x, m, Run(x, ArithCode(op, g.t, g.v, h.v), m), g.lo, at, [k], false)
  {
    hide Kept, Unused, Flags, Read, Data, ArithSql, Results, PutData;
    var n := |x.rows|;
    var p, bs := DenotesParts(m, g.t, g.v, n, g.sem(x));
    var q, cs := DenotesParts(m, h.t, h.v, n, h.sem(x));
    var m1 := JoinNulls(x, m, g, h, at);
    RunTwo(x, OrI(g.v.isNull, h.v.isNull), ArithI(op, g.t, g.v, h.v), m);
    assert AllTyped(g.t, p) && AllTyped(g.t, q);
    var out := Results(x.batch.kernels, op, g.t, p, q);
    ResultAt(x.batch.kernels, op, g.t, p, q);
    forall j | 0 <= j < n ensures k.sem(x)[j] == if g.sem(x)[j].Null? || h.sem(x)[j].Null? then Null
      else Value(out[j].data) {
      ArithDenotes(x.batch.kernels, op, g.t, Arg(p[j].data, p[j].len, bs[j]), Arg(q[j].data, q[j].len, cs[j]));
    }
    ResultsIn(x, m, m1, g, h, k, at, out);
  }

  /** Results in the left operand's data array, beside the joined null flags. */
  lemma ResultsIn(x: Call, m: Mem, m1: Mem, g: Goal, h: Goal, k: Goal, at: nat, out: seq<Datum>)
    requires g.Goal? && h.Goal? && k.Goal? && g.t == h.t && IsInteger(g.t) && k == g.(sem := k.sem) &&
      NullsJoined(x, m, m1, g, h, at)
    requires |out| == |x.rows| == |k.sem(x)| && DatumsOk(g.t, out)
    requires forall j | 0 <= j < |out| ::
      k.sem(x)[j] == if g.sem(x)[j].Null? || h.sem(x)[j].Null? then Null else Value(out[j].data)
    ensures var u := PutData(m1, g.t, g.v, out); Kept(m, u, g.lo) && Unused(u, at) && Holds(x, u, k)
  {
    hide Kept, Unused, Flags, Data;
    var n := |x.rows|;
    var either := EitherNull(g.sem(x), h.sem(x));
    var cells := seq(n, i requires 0 <= i < n => out[i].data);
    var u := PutData(m1, g.t, g.v, out);
    assert u == Put(m1, g.v.data, cells);
    PutKept(m1, g.v.data, cells, g.lo, at);
    KeptTrans(m, m1, u, g.lo, g.lo);
    PutDataGet(m1, g.t, g.v, out, n);
    FlagsUntouched(m1, g.v.data, cells, g.v.isNull, n);
    var args := seq(n, j requires 0 <= j < n => Arg(out[j].data, out[j].len, either[j]));
    assert DatumsOf(args) == out && FlagsOf(args) == either;
    ReadIs(u, g.t, g.v, args, n);
  }

  lemma FlagsUntouched(m: Mem, name: nat, cells: seq<Val>, other: nat, n: nat)
    requires Loc(m, other) != Loc(m, name)
    ensures Flags(Put(m, name, cells), other, n) == Flags(m, other, n)
  {
    PutGet(m, name, cells, other);
  }

  lemma DivideComputes(schema: seq<Type>, op: ArithOp, t: Type, g: Goal, h: Goal, k: Goal, at: nat)
    requires (op == DIV || op == MOD) && IsInteger(t) && ColumnOf(schema, g, t) && ColumnOf(schema, h, t) &&
      ColumnOf(schema, k, t)
    requires k == g.(sem := k.sem) && g.lo <= g.hi && After(h, g.hi, at)
    requires forall x, j | CallOk(x, schema) && 0 <= j < |x.rows| ::
      k.sem(x)[j] == ArithSql(BatchKernels(x.batch.kernels), op, t, g.sem(x)[j], h.sem(x)[j])
    ensures ComputesFrom(schema, [g, h], ArithCode(op, t, g.v, h.v), g.lo, at, at, [k], Zeros(g, h))
  {
    hide Kept, Unused, Holds, ArithCode, ArithSql, BatchKernels, ZeroDivides;
    forall x, m | Starts(x, schema, m, at, [g, h])
      ensures Delivers(x, m, Run(x, ArithCode(op, t, g.v, h.v), m), g.lo, at, [k], ZeroDivides(g.sem(x), h.sem(x)))
    {
      TwoHold(x, schema, m, at, g, h);
      DivideRuns(x, m, op, g, h, k, at);
    }
  }

  lemma DivideRuns(x: Call, m: Mem, op: ArithOp, g: Goal, h: Goal, k: Goal, at: nat)
    requires (op == DIV || op == MOD) && g.Goal? && h.Goal? && k.Goal? && g.t == h.t && IsInteger(g.t) &&
      k == g.(sem := k.sem)
    requires Holds(x, m, g) && Holds(x, m, h) && Unused(m, at) && g.hi <= h.lo <= at &&
      |g.sem(x)| == |h.sem(x)| == |k.sem(x)| == |x.rows|
    requires DivisionOk(x.batch.kernels)
    requires forall j | 0 <= j < |x.rows| ::
      k.sem(x)[j] == ArithSql(BatchKernels(x.batch.kernels), op, g.t, g.sem(x)[j], h.sem(x)[j])
    ensures Delivers(x, m, Run(x, ArithCode(op, g.t, g.v, h.v), m), g.lo, at, [k], ZeroDivides(g.sem(x), h.sem(x)))
  {
    hide Kept, Unused, Flags, Data, DivisionOk, BatchKernels, ArithSql, Quotients, Read, PutData;
    var n, ks := |x.rows|, BatchKernels(x.batch.kernels);
    BatchDivisionOk(x.batch.kernels);
    var p, bs := DenotesParts(m, g.t, g.v, n, g.sem(x));
    var q, cs := DenotesParts(m, h.t, h.v, n, h.sem(x));
    var m1 := JoinNulls(x, m, g, h, at);
    RunTwo(x, OrI(g.v.isNull, h.v.isNull), DivideI(op, g.t, g.v, h.v), m);
    var either := EitherNull(g.sem(x), h.sem(x));
    assert AllTyped(g.t, p) && AllTyped(g.t, q);
    forall j | 0 <= j < n ensures (!either[j] && q[j].data == VInt(0)) <==>
      (g.sem(x)[j].Value? && h.sem(x)[j] == Value(VInt(0))) {
      assert SqlOf(h.t, Arg(q[j].data, q[j].len, cs[j])) == h.sem(x)[j];
    }
    if !ZeroDivides(g.sem(x), h.sem(x)) {
      var out := Quotients(ks, op, g.t, p, q, either);
      QuotientAt(ks, op, g.t, p, q, either);
      forall j | 0 <= j < n ensures k.sem(x)[j] == if either[j] then Null else Value(out[j].data) {
        DivideDenotes(ks, op, g.t, Arg(p[j].data, p[j].len, bs[j]), Arg(q[j].data, q[j].len, cs[j]));
      }
      ResultsIn(x, m, m1, g, h, k, at, out);
    }
  }

  lemma QuotientAt(k: Kernels, op: ArithOp, t: Type, p: seq<Datum>, q: seq<Datum>, nulls: seq<bool>)
    requires IsInteger(t) && |p| == |q| == |nulls| && AllTyped(t, p) && AllTyped(t, q)
    ensures DatumsOk(t, Quotients(k, op, t, p, q, nulls))
    ensures forall j | 0 <= j < |p| :: p[j].data.VInt? && q[j].data.VInt?
    ensures forall j | 0 <= j < |p| :: !nulls[j] ==>
      Quotients(k, op, t, p, q, nulls)[j].data == VInt(k.arith(op, t, p[j].data.i, q[j].data.i).0)
  {
    assert forall j | 0 <= j < |p| :: Typed(t, p[j].data) && Typed(t, q[j].data);
  }

  lemma DivideDenotes(k: Kernels, op: ArithOp, t: Type, l: Arg, r: Arg)
    requires (op == DIV || op == MOD) && IsInteger(t) && ArgOk(t, l) && ArgOk(t, r) && DivisionOk(k)
    requires l.isNull || r.isNull || r.data != VInt(0)
    ensures ArithSql(k, op, t, SqlOf(t, l), SqlOf(t, r)) == if l.isNull || r.isNull then Null
      else Value(VInt(k.arith(op, t, l.data.i, r.data.i).0))
  {
  }

  // ---------- IF, COALESCE ----------

  lemma IfComputes(schema: seq<Type>, t: Type, c: Goal, g: Goal, h: Goal, k: Goal, lo: nat, at: nat)
    requires ColumnOf(schema, c, Boolean) && ColumnOf(schema, g, t) && ColumnOf(schema, h, t) && ColumnOf(schema, k, t)
    requires k == g.(sem := k.sem) && After(c, lo, g.lo) && g.lo <= g.hi && After(h, g.hi, at)
    requires forall x, j | CallOk(x, schema) && 0 <= j < |x.rows| ::
      k.sem(x)[j] == if c.sem(x)[j] == TRUE then g.sem(x)[j] else h.sem(x)[j]
    ensures ComputesFrom(schema, [c, g, h], [IfI(t, c.v, g.v, h.v)], lo, at, at, [k], Never())
  {
    hide Kept, Unused, Holds;
    forall x, m | Starts(x, schema, m, at, [c, g, h]) ensures Delivers(x, m, Run(x, [IfI(t, c.v, g.v, h.v)], m), lo, at,
      [k], false) {
      ThreeHold(x, schema, m, at, c, g, h);
      IfRuns(x, m, c, g, h, k, lo, at);
    }
  }

  lemma IfRuns(x: Call, m: Mem, c: Goal, g: Goal, h: Goal, k: Goal, lo: nat, at: nat)
    requires c.Goal? && g.Goal? && h.Goal? && k.Goal? && c.t == Boolean && g.t == h.t && k == g.(sem := k.sem) &&
      lo <= g.lo
    requires Holds(x, m, c) && Holds(x, m, g) && Holds(x, m, h) && Unused(m, at)
    requires |c.sem(x)| == |g.sem(x)| == |h.sem(x)| == |k.sem(x)| == |x.rows|
    requires forall j | 0 <= j < |x.rows| :: k.sem(x)[j] == if c.sem(x)[j] == TRUE then g.sem(x)[j] else h.sem(x)[j]
    ensures Delivers(x, m, Run(x, [IfI(g.t, c.v, g.v, h.v)], m), lo, at, [k], false)
  {
    hide Kept, Unused, Read, Write, LenOk;
    var n := |x.rows|;
    var d := DenotesArgs(m, Boolean, c.v, n, c.sem(x));
    var p := DenotesArgs(m, g.t, g.v, n, g.sem(x));
    var q := DenotesArgs(m, h.t, h.v, n, h.sem(x));
    RunOne(x, IfI(g.t, c.v, g.v, h.v), m);
    Written(x, m, k, seq(n, j requires 0 <= j < n => if d[j].data.b && !d[j].isNull then p[j] else q[j]), lo, at);
  }

  lemma CoalesceComputes(schema: seq<Type>, t: Type, g: Goal, h: Goal, k: Goal, at: nat)
    requires ColumnOf(schema, g, t) && ColumnOf(schema, h, t) && ColumnOf(schema, k, t)
    requires k == g.(sem := k.sem) && g.lo <= g.hi && After(h, g.hi, at)
    requires forall x, j | CallOk(x, schema) && 0 <= j < |x.rows| ::
      k.sem(x)[j] == if g.sem(x)[j].Null? then h.sem(x)[j] else g.sem(x)[j]
    ensures ComputesFrom(schema, [g, h], [CoalesceI(t, g.v, h.v)], g.lo, at, at, [k], Never())
  {
    hide Kept, Unused, Holds;
    forall x, m | Starts(x, schema, m, at, [g, h]) ensures Delivers(x, m, Run(x, [CoalesceI(t, g.v, h.v)], m), g.lo, at,
      [k], false) {
      TwoHold(x, schema, m, at, g, h);
      CoalesceRuns(x, m, g, h, k, at);
    }
  }

  lemma CoalesceRuns(x: Call, m: Mem, g: Goal, h: Goal, k: Goal, at: nat)
    requires g.Goal? && h.Goal? && k.Goal? && g.t == h.t && k == g.(sem := k.sem)
    requires Holds(x, m, g) && Holds(x, m, h) && Unused(m, at) && |g.sem(x)| == |h.sem(x)| == |k.sem(x)| == |x.rows|
    requires forall j | 0 <= j < |x.rows| :: k.sem(x)[j] == if g.sem(x)[j].Null? then h.sem(x)[j] else g.sem(x)[j]
    ensures Delivers(x, m, Run(x, [CoalesceI(g.t, g.v, h.v)], m), g.lo, at, [k], false)
  {
    hide Kept, Unused, Read, Write, LenOk;
    var n := |x.rows|;
    var p := DenotesArgs(m, g.t, g.v, n, g.sem(x));
    var q := DenotesArgs(m, h.t, h.v, n, h.sem(x));
    RunOne(x, CoalesceI(g.t, g.v, h.v), m);
    Written(x, m, k, seq(n, j requires 0 <= j < n => if p[j].isNull then q[j] else p[j]), g.lo, at);
  }

  // ---------- BETWEEN ----------

  function BetweenCmps(t: Type, v: Vec, lower: Vec, upper: Vec, at: nat): seq<Instr> {
    [CmpI(LTE, t, lower, v, at), CmpI(LTE, t, v, upper, at + 1)]
  }

  function BetweenJoins(v: Vec, lower: Vec, upper: Vec, at: nat): seq<Instr> {
    [OrI(lower.isNull, v.isNull)] + [OrI(lower.isNull, upper.isNull), AndI(at, at + 1)]
  }

  lemma BetweenComputes(schema: seq<Type>, t: Type, g: Goal, l: Goal, u: Goal, k: Goal, at: nat)
    requires t != Boolean && ColumnOf(schema, g, t) && ColumnOf(schema, l, t) && ColumnOf(schema, u, t) &&
      ColumnOf(schema, k, Boolean)
    requires k == Goal(Boolean, Vec(at, l.v.isNull, at), g.lo, at + 2, k.sem) && g.lo <= g.hi && After(l, g.hi, u.lo) &&
      After(u, u.lo, at)
    requires forall x, j | CallOk(x, schema) && 0 <= j < |x.rows| ::
      k.sem(x)[j] == BetweenSql(x.batch.kernels, g.sem(x)[j], l.sem(x)[j], u.sem(x)[j])
    ensures ComputesFrom(schema, [g, l, u], BetweenCmps(t, g.v, l.v, u.v, at) + BetweenJoins(g.v, l.v, u.v, at), g.lo,
      at, at + 2, [k], Never())
  {
    hide Kept, Unused, Holds, BetweenSql, BetweenCmps, BetweenJoins;
    var code := BetweenCmps(t, g.v, l.v, u.v, at) + BetweenJoins(g.v, l.v, u.v, at);
    forall x, m | Starts(x, schema, m, at, [g, l, u]) ensures Delivers(x, m, Run(x, code, m), g.lo, at + 2, [k],
      false) {
      ThreeHold(x, schema, m, at, g, l, u);
      BetweenRuns(x, m, g, l, u, k, at);
    }
  }

  /** Three values of one type in arrays below `at`. */
  ghost predicate Three(x: Call, m: Mem, g: Goal, l: Goal, u: Goal, at: nat) {
    && g.Goal? && l.Goal? && u.Goal? && g.t == l.t == u.t && g.lo <= g.hi <= l.lo <= l.hi <= u.lo <= u.hi <= at
    && Holds(x, m, g) && Holds(x, m, l) && Holds(x, m, u) && Unused(m, at)
    && |g.sem(x)| == |l.sem(x)| == |u.sem(x)| == |x.rows|
  }

  /** Null when any of the three is, else both comparisons. */
  ghost predicate BothCompared(x: Call, g: Goal, l: Goal, u: Goal, k: Goal, c: seq<bool>, d: seq<bool>)
    requires g.Goal? && l.Goal? && u.Goal? && k.Goal?
    requires |g.sem(x)| == |l.sem(x)| == |u.sem(x)| == |k.sem(x)| == |x.rows|
  {
    && |c| == |d| == |x.rows|
    && forall j | 0 <= j < |x.rows| ::
         k.sem(x)[j] == (if g.sem(x)[j].Null? || l.sem(x)[j].Null? || u.sem(x)[j].Null? then Null
           else Value(VBool(c[j] && d[j])))
  }

  lemma BetweenRuns(x: Call, m: Mem, g: Goal, l: Goal, u: Goal, k: Goal, at: nat)
    requires Three(x, m, g, l, u, at) && g.t != Boolean && k.Goal? && |k.sem(x)| == |x.rows|
    requires k == Goal(Boolean, Vec(at, l.v.isNull, at), g.lo, at + 2, k.sem)
    requires forall j | 0 <= j < |x.rows| ::
      k.sem(x)[j] == BetweenSql(x.batch.kernels, g.sem(x)[j], l.sem(x)[j], u.sem(x)[j])
    ensures Delivers(x, m, Run(x, BetweenCmps(g.t, g.v, l.v, u.v, at) + BetweenJoins(g.v, l.v, u.v, at), m), g.lo, at +
      2, [k], false)
  {
    hide Kept, Unused, Flags, BetweenSql, BetweenCmps, BetweenJoins, Run, Three, BothCompared;
    ThreeBounds(x, m, g, l, u, at);
    var first, second := BetweenCmps(g.t, g.v, l.v, u.v, at), BetweenJoins(g.v, l.v, u.v, at);
    RunAppend(x, first, second, m);
    var m2, c, d := CmpsRun(x, m, g, l, u, k, at);
    JoinsRun(x, m2, g, l, u, k, at, c, d);
    KeptTrans(m, m2, Run(x, second, m2).mem, g.lo, g.lo);
  }

  lemma ThreeBounds(x: Call, m: Mem, g: Goal, l: Goal, u: Goal, at: nat)
    requires Three(x, m, g, l, u, at)
    ensures g.Goal? && l.Goal? && u.Goal? && u.hi <= at && g.lo <= at
  {
  }

  /** Both comparisons done. */
  lemma CmpsRun(x: Call, m: Mem, g: Goal, l: Goal, u: Goal, k: Goal, at: nat)
                returns (m2: Mem, c: seq<bool>, d: seq<bool>)
    requires Three(x, m, g, l, u, at) && g.t != Boolean && k.Goal? && |k.sem(x)| == |x.rows|
    requires forall j | 0 <= j < |x.rows| ::
      k.sem(x)[j] == BetweenSql(x.batch.kernels, g.sem(x)[j], l.sem(x)[j], u.sem(x)[j])
    ensures Run(x, BetweenCmps(g.t, g.v, l.v, u.v, at), m) == Ran(m2)
    ensures Kept(m, m2, g.lo) && Three(x, m2, g, l, u, at + 2) && Loc(m2, at) == at && Loc(m2, at + 1) == at + 1
    ensures Flags(m2, at, |x.rows|) == Some(c) && Flags(m2, at + 1, |x.rows|) == Some(d) &&
      BothCompared(x, g, l, u, k, c, d)
  {
    hide Flags, Denotes, Data, BetweenSql, CompareDatum, BetweenCmps, Compared, Kept, Unused, LenOk;
    var n := |x.rows|;
    var p, bs := DenotesParts(m, g.t, g.v, n, g.sem(x));
    var q, cs := DenotesParts(m, l.t, l.v, n, l.sem(x));
    var r, ds := DenotesParts(m, u.t, u.v, n, u.sem(x));
    m2 := CmpsExec(x, m, g.t, g.v, l.v, u.v, g.lo, at, p, q, r);
    c, d := Compared(x.batch.kernels, LTE, g.t, q, p), Compared(x.batch.kernels, LTE, g.t, p, r);
    HoldsKept(x, m, m2, g, at);
    HoldsKept(x, m, m2, l, at);
    HoldsKept(x, m, m2, u, at);
    forall j | 0 <= j < n
      ensures k.sem(x)[j] == (if g.sem(x)[j].Null? || l.sem(x)[j].Null? || u.sem(x)[j].Null? then Null
        else Value(VBool(c[j] && d[j])))
    {
      ComparedAt(x.batch.kernels, LTE, g.t, q, p, j);
      ComparedAt(x.batch.kernels, LTE, g.t, p, r, j);
      BetweenDenotes(x.batch.kernels, g.t, Arg(p[j].data, p[j].len, bs[j]), Arg(q[j].data, q[j].len, cs[j]),
        Arg(r[j].data, r[j].len, ds[j]));
    }
  }

  lemma ComparedAt(k: Kernels, op: CmpOp, t: Type, p: seq<Datum>, q: seq<Datum>, j: nat)
    requires |p| == |q| && AllTyped(t, p) && AllTyped(t, q) && j < |p|
    ensures Compared(k, op, t, p, q)[j] == CompareDatum(k, op, t, p[j], q[j])
  {
  }

  lemma KeptLower(m: Mem, u: Mem, at: nat, lo: nat)
    requires Kept(m, u, at) && lo <= at
    ensures Kept(m, u, lo)
  {
  }

  predicate Under(m: Mem, t: Type, v: Vec, at: nat) {
    Loc(m, v.data) < at && (t == Varchar ==> Loc(m, v.length) < at)
  }

  /** Two comparisons into fresh arrays. */
  lemma CmpsExec(x: Call, m: Mem, t: Type, v: Vec, lower: Vec, upper: Vec, lo: nat, at: nat, p: seq<Datum>,
                 q: seq<Datum>, r: seq<Datum>) returns (m2: Mem)
    requires Data(m, t, v, |x.rows|) == Some(p) && Data(m, t, lower, |x.rows|) == Some(q) &&
      Data(m, t, upper, |x.rows|) == Some(r)
    requires Unused(m, at) && lo <= at && Under(m, t, v, at) && Under(m, t, upper, at)
    ensures |p| == |q| == |r| == |x.rows| && AllTyped(t, p) && AllTyped(t, q) && AllTyped(t, r)
    ensures Run(x, BetweenCmps(t, v, lower, upper, at), m) == Ran(m2)
    ensures Kept(m, m2, at) && Kept(m, m2, lo) && Unused(m2, at + 2) && Loc(m2, at) == at && Loc(m2, at + 1) == at + 1
    ensures Flags(m2, at, |x.rows|) == Some(Compared(x.batch.kernels, LTE, t, q, p))
    ensures Flags(m2, at + 1, |x.rows|) == Some(Compared(x.batch.kernels, LTE, t, p, r))
  {
    hide Flags, Data, Compared, Exec, Kept;
    var n := |x.rows|;
    FreshNames(m, at, at);
    FreshNames(m, at, at + 1);
    ExecCmp(x, LTE, t, lower, v, at, m, q, p);
    var c := Compared(x.batch.kernels, LTE, t, q, p);
    var m1 := PutFlags(m, at, c);
    SameData(m, m1, t, v, n);
    SameData(m, m1, t, upper, n);
    PutFlagsGet(m, at, c, n);
    PutKept(m, at, Cells(c), at, at + 2);
    ExecCmp(x, LTE, t, v, upper, at + 1, m1, p, r);
    var d := Compared(x.batch.kernels, LTE, t, p, r);
    m2 := PutFlags(m1, at + 1, d);
    RunTwo(x, CmpI(LTE, t, lower, v, at), CmpI(LTE, t, v, upper, at + 1), m);
    PutFlagsOther(m1, at + 1, d, at, n);
    PutFlagsGet(m1, at + 1, d, n);
    PutKept(m1, at + 1, Cells(d), at, at + 2);
    KeptTrans(m, m1, m2, at, at);
    KeptLower(m, m2, at, lo);
  }

  lemma BetweenDenotes(k: Kernels, t: Type, a: Arg, l: Arg, u: Arg)
    requires t != Boolean && ArgOk(t, a) && ArgOk(t, l) && ArgOk(t, u)
    ensures BetweenSql(k, SqlOf(t, a), SqlOf(t, l), SqlOf(t, u))
         == if a.isNull || l.isNull || u.isNull then Null
            else Value(VBool(CompareDatum(k, LTE, t, Datum(l.data, l.len), Datum(a.data, a.len)) &&
              CompareDatum(k, LTE, t, Datum(a.data, a.len), Datum(u.data, u.len))))
  {
  }

  /** Null flags and comparisons joined. */
  lemma JoinsRun(x: Call, m: Mem, g: Goal, l: Goal, u: Goal, k: Goal, at: nat, c: seq<bool>, d: seq<bool>)
    requires Three(x, m, g, l, u, at + 2) && u.hi <= at && k.Goal? && Loc(m, at) == at && Loc(m, at + 1) == at + 1
    requires k == Goal(Boolean, Vec(at, l.v.isNull, at), g.lo, at + 2, k.sem) && |k.sem(x)| == |x.rows|
    requires Flags(m, at, |x.rows|) == Some(c) && Flags(m, at + 1, |x.rows|) == Some(d) &&
      BothCompared(x, g, l, u, k, c, d)
    ensures Delivers(x, m, Run(x, BetweenJoins(g.v, l.v, u.v, at), m), g.lo, at + 2, [k], false)
  {
    hide Flags, Kept, Unused, Data, Denotes, BetweenJoins, Run;
    var n := |x.rows|;
    var _, bs := DenotesParts(m, g.t, g.v, n, g.sem(x));
    var _, cs := DenotesParts(m, l.t, l.v, n, l.sem(x));
    var _, ds := DenotesParts(m, u.t, u.v, n, u.sem(x));
    var m3, either, both := JoinsExec(x, m, g.v, l.v, u.v, at, bs, cs, ds, c, d, g.lo);
    FlagsDenote(m3, k.v, n, both, either, k.sem(x));
  }

  lemma JoinsExec(x: Call, m: Mem, v: Vec, lower: Vec, upper: Vec, at: nat, bs: seq<bool>, cs: seq<bool>, ds: seq<bool>,
                  c: seq<bool>, d: seq<bool>, lo: nat)
    returns (m3: Mem, either: seq<bool>, both: seq<bool>)
    requires Flags(m, v.isNull, |x.rows|) == Some(bs) && Flags(m, lower.isNull, |x.rows|) == Some(cs) &&
      Flags(m, upper.isNull, |x.rows|) == Some(ds)
    requires Flags(m, at, |x.rows|) == Some(c) && Flags(m, at + 1, |x.rows|) == Some(d) && Unused(m, at + 2)
    requires Loc(m, at) == at && Loc(m, at + 1) == at + 1 && lo <= Loc(m, lower.isNull) < at && lo <= at
    requires Loc(m, upper.isNull) != Loc(m, lower.isNull)
    ensures Run(x, BetweenJoins(v, lower, upper, at), m) == Ran(m3)
    ensures |bs| == |cs| == |ds| == |c| == |d| == |either| == |both| == |x.rows|
    ensures Flags(m3, lower.isNull, |x.rows|) == Some(either) && Flags(m3, at, |x.rows|) == Some(both)
    ensures Loc(m3, lower.isNull) == Loc(m, lower.isNull) && Loc(m3, at) == at && Kept(m, m3, lo) && Unused(m3, at + 2)
    ensures forall j | 0 <= j < |x.rows| :: either[j] == (bs[j] || cs[j] || ds[j]) && both[j] == (c[j] && d[j])
  {
    hide Flags, Kept, Unused, Exec, Ored, Anded;
    var n := |x.rows|;
    ExecOr(x, lower.isNull, v.isNull, m, cs, bs);
    var e := Ored(cs, bs);
    var m1 := PutFlags(m, lower.isNull, e);
    PutFlagsGet(m, lower.isNull, e, n);
    PutFlagsOther(m, lower.isNull, e, upper.isNull, n);
    PutFlagsOther(m, lower.isNull, e, at, n);
    PutFlagsOther(m, lower.isNull, e, at + 1, n);
    PutKept(m, lower.isNull, Cells(e), lo, at + 2);
    ExecOr(x, lower.isNull, upper.isNull, m1, e, ds);
    either := Ored(e, ds);
    var m2 := PutFlags(m1, lower.isNull, either);
    PutFlagsGet(m1, lower.isNull, either, n);
    PutFlagsOther(m1, lower.isNull, either, at, n);
    PutFlagsOther(m1, lower.isNull, either, at + 1, n);
    PutKept(m1, lower.isNull, Cells(either), lo, at + 2);
    ExecAnd(x, at, at + 1, m2, c, d);
    both := Anded(c, d);
    m3 := PutFlags(m2, at, both);
    PutFlagsGet(m2, at, both, n);
    PutFlagsOther(m2, at, both, lower.isNull, n);
    PutKept(m2, at, Cells(both), lo, at + 2);
    KeptTrans(m, m1, m2, lo, lo);
    KeptTrans(m, m2, m3, lo, lo);
    RunCons(x, OrI(lower.isNull, v.isNull), [OrI(lower.isNull, upper.isNull), AndI(at, at + 1)], m);
    RunTwo(x, OrI(lower.isNull, upper.isNull), AndI(at, at + 1), m1);
  }

  // ---------- literals and fields ----------

  lemma LiteralComputes(schema: seq<Type>, t: Type, v: Val, isNull: bool, k: Goal, lo: nat)
    requires Typed(t, v) && ColumnOf(schema, k, t) && k == Goal(t, Vec(lo, lo + 1, lo + 2), lo, lo + 3, k.sem)
    requires forall x, j | CallOk(x, schema) && 0 <= j < |x.rows| :: k.sem(x)[j] == if isNull then Null else Value(v)
    ensures Computes(schema, [FillLiteralI(t, k.v, v, isNull)], lo, lo + 3, [k], Never())
  {
    hide Kept, Holds, Write;
    forall x, m | Starts(x, schema, m, lo, []) ensures Delivers(x, m, Run(x, [FillLiteralI(t, k.v, v, isNull)], m), lo,
      lo + 3, [k], false) {
      RunOne(x, FillLiteralI(t, k.v, v, isNull), m);
      FreshNames(m, lo, lo);
      FreshNames(m, lo, lo + 1);
      FreshNames(m, lo, lo + 2);
      if v.VPtr? {
        assert v.bytes[..|v.bytes|] == v.bytes;
      }
      Written(x, m, k, seq(|x.rows|, _ => Arg(v, VInt(if v.VPtr? then |v.bytes| else 0), isNull)), lo, lo + 3);
    }
  }

  /** Arrays of a field: two data and two length arrays, one pair of which is used, the phis, the null flags. */
  function FieldCode(t: Type, col: nat, lo: nat): seq<Instr> {
    [GetDictionaryI(t, col, Vec(lo, lo, lo + 1)), GetVectorI(t, col, Vec(lo + 2, lo + 2, lo + 3))] +
      FieldPhis(t, col, lo)
  }

  function FieldPhis(t: Type, col: nat, lo: nat): seq<Instr> {
    [PhiI(lo + 4, col, lo, lo + 2)] + (if t == Varchar then [PhiI(lo + 5, col, lo + 1, lo + 3)] else []) +
      [BitsToNullI(col, lo + 6)]
  }

  ghost function Fetched(x: Call, t: Type, col: nat): (ds: seq<Datum>)
    requires col < |x.batch.columns| && x.batch.columns[col].Valid(t) && Within(x.rows, |x.batch.columns[col].nulls|)
    ensures |ds| == |x.rows| && DatumsOk(t, ds)
  {
    seq(|x.rows|, j requires 0 <= j < |x.rows| =>
      var d := x.batch.columns[col].DatumAt(t, x.rows[j]); Datum(d.data, if t == Varchar then d.len else VInt(0)))
  }

  lemma FetchExec(x: Call, m: Mem, t: Type, col: nat, out: Vec)
    requires col < |x.batch.columns| && x.batch.columns[col].Valid(t) && Within(x.rows, |x.batch.columns[col].nulls|)
    ensures GetColumn(x, t, col, out, m) == Ran(PutData(m, t, out, Fetched(x, t, col)))
  {
    hide Vector.DatumAt, Vector.Valid;
    var c := x.batch.columns[col];
    var ds := seq(|x.rows|, j requires 0 <= j < |x.rows| => c.DatumAt(t, x.rows[j]));
    var fs := Fetched(x, t, col);
    assert forall j | 0 <= j < |x.rows| :: ds[j].data == fs[j].data && (t == Varchar ==> ds[j].len == fs[j].len);
    assert seq(|ds|, i requires 0 <= i < |ds| => ds[i].data) == seq(|fs|, i requires 0 <= i < |fs| => fs[i].data);
    if t == Varchar {
      assert seq(|ds|, i requires 0 <= i < |ds| => ds[i].len) == seq(|fs|, i requires 0 <= i < |fs| => fs[i].len);
    }
  }

  /** The arrays the arm that runs writes. */
  function UsedArm(x: Call, col: nat, lo: nat): Vec
    requires col < |x.batch.columns|
  {
    if x.batch.columns[col].Dictionary? then Vec(lo, lo, lo + 1) else Vec(lo + 2, lo + 2, lo + 3)
  }

  lemma ArmsRun(x: Call, m: Mem, t: Type, col: nat, lo: nat) returns (m1: Mem)
    requires col < |x.batch.columns| && x.batch.columns[col].Valid(t) && Within(x.rows, |x.batch.columns[col].nulls|) &&
      Unused(m, lo)
    ensures Run(x, [GetDictionaryI(t, col, Vec(lo, lo, lo + 1)), GetVectorI(t, col, Vec(lo + 2, lo + 2, lo + 3))], m) ==
      Ran(m1)
    ensures m1.aliases == m.aliases && Kept(m, m1, lo) && Data(m1, t, UsedArm(x, col, lo), |x.rows|) ==
      Some(Fetched(x, t, col))
  {
    hide Data, Fetched, GetColumn, Vector.Valid;
    var used := UsedArm(x, col, lo);
    FreshNames(m, lo, used.data);
    FreshNames(m, lo, used.length);
    FetchExec(x, m, t, col, used);
    m1 := PutData(m, t, used, Fetched(x, t, col));
    PutDataGet(m, t, used, Fetched(x, t, col), |x.rows|);
    RunTwo(x, GetDictionaryI(t, col, Vec(lo, lo, lo + 1)), GetVectorI(t, col, Vec(lo + 2, lo + 2, lo + 3)), m);
  }

  lemma PhisRun(x: Call, m: Mem, t: Type, col: nat, lo: nat, ds: seq<Datum>, bs: seq<bool>) returns (u: Mem)
    requires col < |x.batch.columns| && Within(x.rows, |x.batch.columns[col].nulls|) && Unused(m, lo)
    requires Data(m, t, UsedArm(x, col, lo), |x.rows|) == Some(ds)
    requires bs == ColumnNulls(x, col)
    ensures Run(x, FieldPhis(t, col, lo), m) == Ran(u) && Kept(m, u, lo) && Unused(u, lo + 7)
    ensures var v := Vec(lo + 4, lo + 6, lo + 5);
      Apart(u, t, v, lo, lo + 7) && Data(u, t, v, |x.rows|) == Some(ds) && Flags(u, v.isNull, |x.rows|) == Some(bs)
  {
    hide Flags, Kept, Unused, Apart, UsedArm, FieldPhis, Data, ColumnNulls, Run, Cells;
    var used, v := UsedArm(x, col, lo), Vec(lo + 4, lo + 6, lo + 5);
    var m1 := m.(aliases := m.aliases[lo + 4 := used.data]);
    var m2 := if t == Varchar then m1.(aliases := m1.aliases[lo + 5 := used.length]) else m1;
    u := PutFlags(m2, lo + 6, bs);
    FieldPhisRun(x, m, m1, m2, u, t, col, lo);
    PutFlagsGet(m2, lo + 6, bs, |x.rows|);
    UsedInside(x, col, lo);
    PhiNames(m, m1, m2, t, used, Cells(bs), lo);
    PhiData(m, u, t, used, v, |x.rows|);
  }

  lemma ArmNames(x: Call, col: nat, lo: nat)
    requires col < |x.batch.columns|
    ensures UsedArm(x, col, lo).data == (if x.batch.columns[col].Dictionary? then lo else lo + 2)
    ensures UsedArm(x, col, lo).length == (if x.batch.columns[col].Dictionary? then lo + 1 else lo + 3)
  {
  }

  lemma UsedInside(x: Call, col: nat, lo: nat)
    requires col < |x.batch.columns|
    ensures var v := UsedArm(x, col, lo); lo <= v.data < v.length < lo + 4 && v.data != v.length
  {
  }

  /** Where the phis lead. */
  lemma PhiNames(m: Mem, m1: Mem, m2: Mem, t: Type, used: Vec, cells: seq<Val>, lo: nat)
    requires Unused(m, lo) && lo <= used.data < used.length < lo + 4
    requires m1 == m.(aliases := m.aliases[lo + 4 := used.data])
    requires m2 == if t == Varchar then m1.(aliases := m1.aliases[lo + 5 := used.length]) else m1
    ensures var u := Put(m2, lo + 6, cells);
      Kept(m, u, lo) && Unused(u, lo + 7) && Apart(u, t, Vec(lo + 4, lo + 6, lo + 5), lo, lo + 7)
    ensures var u := Put(m2, lo + 6, cells);
      Get(u, lo + 4) == Get(m, used.data) && (t == Varchar ==> Get(u, lo + 5) == Get(m, used.length))
  {
  }

  lemma PhiData(m: Mem, u: Mem, t: Type, used: Vec, v: Vec, n: nat)
    requires Get(u, v.data) == Get(m, used.data) && (t == Varchar ==> Get(u, v.length) == Get(m, used.length))
    ensures Data(u, t, v, n) == Data(m, t, used, n)
  {
  }

  lemma FieldPhisRun(x: Call, m: Mem, m1: Mem, m2: Mem, u: Mem, t: Type, col: nat, lo: nat)
    requires col < |x.batch.columns| && Within(x.rows, |x.batch.columns[col].nulls|)
    requires m1 == m.(aliases := m.aliases[lo + 4 := UsedArm(x, col, lo).data])
    requires m2 == if t == Varchar then m1.(aliases := m1.aliases[lo + 5 := UsedArm(x, col, lo).length]) else m1
    requires u == PutFlags(m2, lo + 6, ColumnNulls(x, col))
    ensures Run(x, FieldPhis(t, col, lo), m) == Ran(u)
  {
    hide PutFlags, Run, ColumnNulls, UsedArm;
    ArmNames(x, col, lo);
    var middle := if t == Varchar then [PhiI(lo + 5, col, lo + 1, lo + 3)] else [];
    assert FieldPhis(t, col, lo) == [PhiI(lo + 4, col, lo, lo + 2)] + (middle + [BitsToNullI(col, lo + 6)]);
    RunCons(x, PhiI(lo + 4, col, lo, lo + 2), middle + [BitsToNullI(col, lo + 6)], m);
    if t == Varchar {
      RunCons(x, PhiI(lo + 5, col, lo + 1, lo + 3), [BitsToNullI(col, lo + 6)], m1);
    } else {
      assert middle + [BitsToNullI(col, lo + 6)] == [BitsToNullI(col, lo + 6)];
    }
    RunOne(x, BitsToNullI(col, lo + 6), m2);
  }

  lemma FieldComputes(schema: seq<Type>, t: Type, col: nat, k: Goal, lo: nat)
    requires col < |schema| && schema[col] == t && ColumnOf(schema, k, t) &&
      k == Goal(t, Vec(lo + 4, lo + 6, lo + 5), lo, lo + 7, k.sem)
    requires forall x, j | CallOk(x, schema) && 0 <= j < |x.rows| ::
      k.sem(x)[j] == x.batch.columns[col].SqlAt(t, x.rows[j])
    ensures Computes(schema, FieldCode(t, col, lo), lo, lo + 7, [k], Never())
  {
    hide Kept, Unused, Data, Flags, Apart, Vector.DatumAt, Vector.Valid, FieldPhis, Run, LenOk;
    forall x, m | Starts(x, schema, m, lo, []) ensures Delivers(x, m, Run(x, FieldCode(t, col, lo), m), lo, lo + 7, [k],
      false) {
      var arms := [GetDictionaryI(t, col, Vec(lo, lo, lo + 1)), GetVectorI(t, col, Vec(lo + 2, lo + 2, lo + 3))];
      var m1 := ArmsRun(x, m, t, col, lo);
      SameAliases(m, m1, lo);
      var ds := Fetched(x, t, col);
      var bs := ColumnNulls(x, col);
      var u := PhisRun(x, m1, t, col, lo, ds, bs);
      RunAppend(x, arms, FieldPhis(t, col, lo), m);
      KeptTrans(m, m1, u, lo, lo);
      var args := seq(|x.rows|, j requires 0 <= j < |x.rows| => Arg(ds[j].data, ds[j].len, bs[j]));
      assert DatumsOf(args) == ds && FlagsOf(args) == bs;
      ReadIs(u, t, k.v, args, |x.rows|);
      forall j | 0 <= j < |x.rows| ensures ArgOk(t, args[j]) && SqlOf(t, args[j]) == k.sem(x)[j] {
        FieldCell(x, t, col, j);
      }
    }
  }

  lemma SameAliases(m: Mem, u: Mem, lo: nat)
    requires Unused(m, lo) && u.aliases == m.aliases
    ensures Unused(u, lo)
  {
  }

  lemma FieldCell(x: Call, t: Type, col: nat, j: nat)
    requires col < |x.batch.columns| && x.batch.columns[col].Valid(t) && Within(x.rows, |x.batch.columns[col].nulls|) &&
      j < |x.rows|
    ensures var d := Fetched(x, t, col)[j]; var a := Arg(d.data, d.len, ColumnNulls(x, col)[j]);
      ArgOk(t, a) && SqlOf(t, a) == x.batch.columns[col].SqlAt(t, x.rows[j])
  {
    hide Vector.Valid, Vector.DatumAt;
  }

  // ---------- IN ----------

  lemma InComputes(schema: seq<Type>, t: Type, g: Goal, hs: seq<Goal>, vs: seq<Vec>, k: Goal, lo: nat, at: nat)
    requires ColumnOf(schema, g, t) && ColumnOf(schema, k, Boolean) && Ordered([g] + hs, lo, at) &&
      Vectors(hs, seq(|hs|, _ => t), vs)
    requires forall i | 0 <= i < |hs| :: ColumnOf(schema, hs[i], t)
    requires k == Goal(Boolean, Vec(at, at + 1, at + 2), lo, at + 3, k.sem)
    requires forall x, j | CallOk(x, schema) && 0 <= j < |x.rows| ::
      k.sem(x)[j] == BatchInSql(g.sem(x)[j], SemsAt(hs, x, j))
    ensures ComputesFrom(schema, [g] + hs, [InI(t, g.v, vs, k.v)], lo, at, at + 3, [k], Never())
  {
    hide Kept, Holds, BatchInSql;
    forall x, m | Starts(x, schema, m, at, [g] + hs) ensures Delivers(x, m, Run(x, [InI(t, g.v, vs, k.v)], m), lo, at +
      3, [k], false) {
      assert Holds(x, m, ([g] + hs)[0]);
      forall i | 0 <= i < |hs| ensures Holds(x, m, hs[i]) {
        assert ([g] + hs)[i + 1] == hs[i];
      }
      InRuns(x, m, t, g, hs, vs, k, lo, at);
    }
  }

  lemma InRuns(x: Call, m: Mem, t: Type, g: Goal, hs: seq<Goal>, vs: seq<Vec>, k: Goal, lo: nat, at: nat)
    requires g.Goal? && k.Goal? && g.t == t && Holds(x, m, g) && Vectors(hs, seq(|hs|, _ => t), vs) && Unused(m, at) &&
      lo <= at
    requires forall i | 0 <= i < |hs| :: Holds(x, m, hs[i]) && |hs[i].sem(x)| == |x.rows|
    requires k == Goal(Boolean, Vec(at, at + 1, at + 2), lo, at + 3, k.sem) && |g.sem(x)| == |k.sem(x)| == |x.rows|
    requires forall j | 0 <= j < |x.rows| :: k.sem(x)[j] == BatchInSql(g.sem(x)[j], SemsAt(hs, x, j))
    ensures Delivers(x, m, Run(x, [InI(t, g.v, vs, k.v)], m), lo, at + 3, [k], false)
  {
    hide Kept, Read, Write, BatchInSql, Members, LenOk, Exec, Denotes, Apart;
    var n := |x.rows|;
    var p := DenotesArgs(m, t, g.v, n, g.sem(x));
    var qs := ReadsAll(x, m, hs, seq(|hs|, _ => t), vs);
    ExecIn(x, t, g.v, vs, k.v, m, p, qs);
    RunOne(x, InI(t, g.v, vs, k.v), m);
    FreshFlags(m, at, lo);
    forall j | 0 <= j < n
      ensures ArgOk(Boolean, Members(t, p, qs)[j]) && SqlOf(Boolean, Members(t, p, qs)[j]) == k.sem(x)[j] &&
        Members(t, p, qs)[j].len == VInt(0)
    {
      assert RowOf(hs, x, qs, j);
      MembersDenote(t, p, qs, j, SemsAt(hs, x, j));
    }
    Written(x, m, k, Members(t, p, qs), lo, at + 3);
  }

  lemma ExecIn(x: Call, t: Type, v: Vec, list: seq<Vec>, out: Vec, m: Mem, p: seq<Arg>, qs: seq<seq<Arg>>)
    requires Read(m, t, v, |x.rows|) == Some(p) && ReadAll(m, seq(|list|, _ => t), list, |x.rows|) == Some(qs)
    ensures |p| == |x.rows| && forall c | 0 <= c < |qs| :: |qs[c]| == |p|
    ensures Exec(x, InI(t, v, list, out), m) == Ran(Write(m, Boolean, out, Members(t, p, qs)))
  {
    hide Read, Members, Write;
  }

  lemma FreshFlags(m: Mem, at: nat, lo: nat)
    requires Unused(m, at) && lo <= at
    ensures Apart(m, Boolean, Vec(at, at + 1, at + 2), lo, at + 3) && Unused(m, at + 3)
  {
    FreshNames(m, at, at);
    FreshNames(m, at, at + 1);
  }

  lemma MembersDenote(t: Type, p: seq<Arg>, qs: seq<seq<Arg>>, j: nat, sqls: seq<Sql>)
    requires (forall c | 0 <= c < |qs| :: |qs[c]| == |p|) && j < |p| && |sqls| == |qs|
    requires forall c | 0 <= c < |qs| :: SqlOf(t, qs[c][j]) == sqls[c]
    ensures var a := Members(t, p, qs)[j];
      ArgOk(Boolean, a) && SqlOf(Boolean, a) == BatchInSql(SqlOf(t, p[j]), sqls) && a.len == VInt(0)
  {
    InDenotes(t, p[j], At(qs, j), sqls);
  }

  lemma InDenotes(t: Type, a: Arg, list: seq<Arg>, sqls: seq<Sql>)
    requires |list| == |sqls| && forall i | 0 <= i < |list| :: SqlOf(t, list[i]) == sqls[i]
    ensures Value(VBool(AnyMatch(t, a, list))) == BatchInSql(SqlOf(t, a), sqls)
  {
    if AnyMatch(t, a, list) {
      var c :| 0 <= c < |list| && Matches(t, a, list[c]);
      assert sqls[c] == SqlOf(t, a);
    }
    if SqlOf(t, a).Value? && SqlOf(t, a) in sqls {
      var c :| 0 <= c < |sqls| && sqls[c] == SqlOf(t, a);
      assert Matches(t, a, list[c]);
    }
  }

  // ---------- SWITCH ----------

  /** The first true condition decides. */
  ghost function FirstSql(conds: seq<Sql>, results: seq<Sql>, els: Sql, i: nat): Sql
    requires |conds| == |results| && i <= |conds|
    decreases |conds| - i
  {
    if i == |conds| then els else if conds[i] == TRUE then results[i] else FirstSql(conds, results, els, i + 1)
  }

  lemma {:induction false} FirstDenotes(t: Type, conds: seq<Arg>, results: seq<Arg>, els: Arg, cs: seq<Sql>,
                                        rs: seq<Sql>, e: Sql, i: nat)
    requires |conds| == |results| == |cs| == |rs| && i <= |conds|
    requires forall j | 0 <= j < |conds| :: conds[j].data.VBool? && SqlOf(Boolean, conds[j]) == cs[j]
    requires forall j | 0 <= j < |conds| :: ArgOk(t, results[j]) && SqlOf(t, results[j]) == rs[j]
    requires ArgOk(t, els) && SqlOf(t, els) == e
    ensures var a := FirstTrue(conds, results, els, i);
      ArgOk(t, a) && SqlOf(t, a) == FirstSql(cs, rs, e, i) && (a == els || a in results)
    decreases |conds| - i
  {
    if i < |conds| {
      FirstDenotes(t, conds, results, els, cs, rs, e, i + 1);
    }
  }

  /** Conditions and results take turns; the default comes last. */
  ghost predicate Turns(gs: seq<Goal>, cs: seq<Goal>, rs: seq<Goal>, e: Goal) {
    && |cs| == |rs| && |gs| == 2 * |cs| + 1 && gs[2 * |cs|] == e
    && forall i | 0 <= i < |cs| :: gs[2 * i] == cs[i] && gs[2 * i + 1] == rs[i]
  }

  ghost predicate SwitchGoals(schema: seq<Type>, t: Type, gs: seq<Goal>, cs: seq<Goal>, rs: seq<Goal>, e: Goal) {
    && Turns(gs, cs, rs, e) && ColumnOf(schema, e, t)
    && forall i | 0 <= i < |cs| :: ColumnOf(schema, cs[i], Boolean) && ColumnOf(schema, rs[i], t)
  }

  lemma SwitchComputes(schema: seq<Type>, t: Type, gs: seq<Goal>, cs: seq<Goal>, rs: seq<Goal>, e: Goal, cvs: seq<Vec>,
                       rvs: seq<Vec>, k: Goal, lo: nat, at: nat)
    requires SwitchGoals(schema, t, gs, cs, rs, e) && ColumnOf(schema, k, t) && Ordered(gs, lo, at)
    requires Vectors(cs, seq(|cs|, _ => Boolean), cvs) && Vectors(rs, seq(|rs|, _ => t), rvs)
    requires k == Goal(t, Vec(at, at + 1, at + 2), lo, at + 3, k.sem)
    requires forall x, j | CallOk(x, schema) && 0 <= j < |x.rows| ::
      k.sem(x)[j] == FirstSql(SemsAt(cs, x, j), SemsAt(rs, x, j), e.sem(x)[j], 0)
    ensures ComputesFrom(schema, gs, [SwitchI(t, cvs, rvs, e.v, k.v)], lo, at, at + 3, [k], Never())
  {
    hide Kept, Holds, FirstSql, Vectors;
    forall x, m | Starts(x, schema, m, at, gs) ensures Delivers(x, m, Run(x, [SwitchI(t, cvs, rvs, e.v, k.v)], m), lo,
      at + 3, [k], false) {
      assert Holds(x, m, gs[2 * |cs|]);
      forall i | 0 <= i < |cs| ensures Holds(x, m, cs[i]) && Holds(x, m, rs[i]) {
        assert Holds(x, m, gs[2 * i]) && Holds(x, m, gs[2 * i + 1]);
      }
      SwitchRuns(x, m, t, cs, rs, e, cvs, rvs, k, lo, at);
    }
  }

  lemma SwitchRuns(x: Call, m: Mem, t: Type, cs: seq<Goal>, rs: seq<Goal>, e: Goal, cvs: seq<Vec>, rvs: seq<Vec>,
                   k: Goal, lo: nat, at: nat)
    requires |cs| == |rs| && Vectors(cs, seq(|cs|, _ => Boolean), cvs) && Vectors(rs, seq(|rs|, _ => t), rvs)
    requires e.Goal? && k.Goal? && e.t == t && Holds(x, m, e) && Unused(m, at) && lo <= at &&
      |e.sem(x)| == |k.sem(x)| == |x.rows|
    requires forall i | 0 <= i < |cs| ::
      Holds(x, m, cs[i]) && Holds(x, m, rs[i]) && |cs[i].sem(x)| == |rs[i].sem(x)| == |x.rows|
    requires k == Goal(t, Vec(at, at + 1, at + 2), lo, at + 3, k.sem)
    requires forall j | 0 <= j < |x.rows| :: k.sem(x)[j] == FirstSql(SemsAt(cs, x, j), SemsAt(rs, x, j), e.sem(x)[j], 0)
    ensures Delivers(x, m, Run(x, [SwitchI(t, cvs, rvs, e.v, k.v)], m), lo, at + 3, [k], false)
  {
    hide Kept, Read, Write, FirstSql, LenOk, Cases, Exec, Denotes, Apart, Conditions;
    var n := |x.rows|;
    var p := ReadsAll(x, m, cs, seq(|cs|, _ => Boolean), cvs);
    var q := ReadsAll(x, m, rs, seq(|rs|, _ => t), rvs);
    var d := DenotesArgs(m, t, e.v, n, e.sem(x));
    ExecSwitch(x, t, cvs, rvs, e.v, k.v, m, p, q, d);
    RunOne(x, SwitchI(t, cvs, rvs, e.v, k.v), m);
    FreshVec(m, t, at, lo);
    forall j | 0 <= j < n ensures SwitchCell(t, Cases(p, q, d)[j], k.sem(x)[j]) {
      assert RowOf(cs, x, p, j) && RowOf(rs, x, q, j);
      CasesDenote(t, p, q, d, j, SemsAt(cs, x, j), SemsAt(rs, x, j), e.sem(x)[j]);
    }
    Written(x, m, k, Cases(p, q, d), lo, at + 3);
  }

  ghost predicate SwitchCell(t: Type, a: Arg, sql: Sql) {
    ArgOk(t, a) && SqlOf(t, a) == sql && a.len.VInt? && (t != Varchar ==> a.len == VInt(0))
  }

  lemma ExecSwitch(x: Call, t: Type, conds: seq<Vec>, results: seq<Vec>, els: Vec, out: Vec, m: Mem, p: seq<seq<Arg>>,
                   q: seq<seq<Arg>>, d: seq<Arg>)
    requires |conds| == |results| && Read(m, t, els, |x.rows|) == Some(d)
    requires ReadAll(m, seq(|conds|, _ => Boolean), conds, |x.rows|) == Some(p) &&
      ReadAll(m, seq(|results|, _ => t), results, |x.rows|) == Some(q)
    ensures |p| == |q| == |conds| && |d| == |x.rows| && Conditions(p, |d|) && forall c | 0 <= c < |q| :: |q[c]| == |d|
    ensures Exec(x, SwitchI(t, conds, results, els, out), m) == Ran(Write(m, t, out, Cases(p, q, d)))
  {
    hide Read, Cases, Write, Conditions;
    ConditionsRead(m, conds, |x.rows|, p);
    ResultsRead(m, t, results, |x.rows|, q);
  }

  lemma ConditionsRead(m: Mem, conds: seq<Vec>, n: nat, p: seq<seq<Arg>>)
    requires ReadAll(m, seq(|conds|, _ => Boolean), conds, n) == Some(p)
    ensures |p| == |conds| && Conditions(p, n)
  {
    hide Read;
    forall c | 0 <= c < |p| ensures |p[c]| == n && forall j | 0 <= j < n :: p[c][j].data.VBool? {
      assert Read(m, Boolean, conds[c], n) == Some(p[c]);
    }
  }

  lemma ResultsRead(m: Mem, t: Type, results: seq<Vec>, n: nat, q: seq<seq<Arg>>)
    requires ReadAll(m, seq(|results|, _ => t), results, n) == Some(q)
    ensures |q| == |results| && forall c | 0 <= c < |q| :: |q[c]| == n
  {
    hide Read;
    forall c | 0 <= c < |q| ensures |q[c]| == n {
      assert Read(m, t, results[c], n) == Some(q[c]);
    }
  }

  lemma FreshVec(m: Mem, t: Type, at: nat, lo: nat)
    requires Unused(m, at) && lo <= at
    ensures Apart(m, t, Vec(at, at + 1, at + 2), lo, at + 3) && Unused(m, at + 3)
  {
    FreshNames(m, at, at);
    FreshNames(m, at, at + 1);
    FreshNames(m, at, at + 2);
  }

  lemma CasesDenote(t: Type, p: seq<seq<Arg>>, q: seq<seq<Arg>>, d: seq<Arg>, j: nat, cs: seq<Sql>, rs: seq<Sql>,
                    e: Sql)
    requires |p| == |q| == |cs| == |rs| && Conditions(p, |d|) && (forall c | 0 <= c < |q| :: |q[c]| == |d|) && j < |d|
    requires forall c | 0 <= c < |p| ::
      SqlOf(Boolean, p[c][j]) == cs[c] && ArgOk(t, q[c][j]) && SqlOf(t, q[c][j]) == rs[c] && ArgsTyped(t, q[c])
    requires ArgsTyped(t, d) && ArgOk(t, d[j]) && SqlOf(t, d[j]) == e
    ensures SwitchCell(t, Cases(p, q, d)[j], FirstSql(cs, rs, e, 0))
  {
    hide FirstTrue, FirstSql, LenOk;
    FirstDenotes(t, At(p, j), At(q, j), d[j], cs, rs, e, 0);
    var a := Cases(p, q, d)[j];
    if a != d[j] {
      var c :| 0 <= c < |q| && At(q, j)[c] == a;
      assert ArgsTyped(t, q[c]);
    }
  }

  // ---------- function calls ----------

  predicate ReturnsNull(sig: FnSig) {
    sig.discipline == InputDataAndNullAndReturnNull
  }

  /** Whether the null flags of the arguments are joined. */
  predicate Joins(sig: FnSig, variant: bool) {
    variant || sig.discipline != InputDataAndNull
  }

  /** The result of a call denotes the SQL function of what its arguments denote. */
  lemma CallDenotes(k: Kernels, sig: FnSig, variant: bool, args: seq<Arg>, sqls: seq<Sql>, flag: bool)
    requires KernelsOk(k) && ArgsOk(sig.params, args) && |sqls| == |args|
    requires forall i | 0 <= i < |args| :: SqlOf(sig.params[i], args[i]) == sqls[i]
    requires flag == (Joins(sig, variant) && Null in sqls)
    ensures var out := CallRow(k, sig, variant, args, flag);
      var a := Arg(out.data, VInt(out.len), (if ReturnsNull(sig) then out.isNull else flag) ||
        (variant && out.overflow));
      ArgOk(sig.ret, a) && SqlOf(sig.ret, a) == FuncSql(k, sig, variant, sqls)
  {
    assert KernelOk(k, sig, variant, args);
    assert sqls == SqlsOf(sig.params, args);
    if AnyNull(args) {
      var i :| 0 <= i < |args| && args[i].isNull;
      assert sqls[i] == Null;
    }
    if Null in sqls {
      var i :| 0 <= i < |sqls| && sqls[i] == Null;
      assert args[i].isNull;
    }
  }
}
