/** Who owns which array, what a value denotes, and how pieces of batch code are put together. A piece owns an
    interval of names; pieces with disjoint intervals leave each other's values alone, so they can be run one after
    the other. */
module BatchSteps {
  import opened SqlValues
  import opened Expressions
  import opened Selection
  import opened BatchIR

  /** The arrays of a value lie in `[lo, hi)` and are three different ones. */
  predicate Apart(m: Mem, t: Type, v: Vec, lo: nat, hi: nat) {
    && lo <= v.data < hi && lo <= v.isNull < hi && lo <= Loc(m, v.data) < hi && lo <= Loc(m, v.isNull) < hi
    && Loc(m, v.data) != Loc(m, v.isNull)
    && (t == Varchar ==>
          && lo <= v.length < hi && lo <= Loc(m, v.length) < hi
          && Loc(m, v.length) != Loc(m, v.data) && Loc(m, v.length) != Loc(m, v.isNull))
  }

  /** Row by row the value shows these SQL values, with anything of the right type behind a null. */
  ghost predicate Denotes(m: Mem, t: Type, v: Vec, n: nat, sqls: seq<Sql>) {
    && |sqls| == n && Read(m, t, v, n).Some?
    && forall j | 0 <= j < n :: ArgOk(t, Read(m, t, v, n).value[j]) && SqlOf(t, Read(m, t, v, n).value[j]) == sqls[j]
  }

  /** A claim: `v` denotes the column `sem`, or the array `name` holds the flags `flags`; either way in arrays of
      its own, those in `[lo, hi)`. */
  datatype Goal =
    | Goal(t: Type, v: Vec, lo: nat, hi: nat, sem: Call -> seq<Sql>)
    | FlagGoal(name: nat, lo: nat, hi: nat, flags: Call -> seq<bool>)

  ghost predicate Holds(x: Call, m: Mem, g: Goal) {
    match g
    case Goal(t, v, lo, hi, sem) => Apart(m, t, v, lo, hi) && Denotes(m, t, v, |x.rows|, sem(x))
    case FlagGoal(name, lo, hi, flags) =>
      lo <= name < hi && lo <= Loc(m, name) < hi && Flags(m, name, |x.rows|) == Some(flags(x))
  }

  ghost predicate AllHold(x: Call, m: Mem, gs: seq<Goal>) {
    forall i | 0 <= i < |gs| :: Holds(x, m, gs[i])
  }

  /** The goals' arrays follow one another: no two goals share one. */
  predicate Ordered(gs: seq<Goal>, lo: nat, hi: nat) {
    && lo <= hi
    && (forall i | 0 <= i < |gs| :: lo <= gs[i].lo <= gs[i].hi <= hi)
    && forall i, j | 0 <= i < j < |gs| :: gs[i].hi <= gs[j].lo
  }

  /** Names from `lo` on are unused. */
  predicate Unused(m: Mem, lo: nat) {
    forall a | a in m.aliases :: a < lo && m.aliases[a] < lo
  }

  /** Everything below `lo` is as it was. */
  ghost predicate Kept(m: Mem, u: Mem, lo: nat) {
    && (forall a: nat | a < lo ::
      (a in m.aliases <==> a in u.aliases) && (a in m.aliases ==> u.aliases[a] == m.aliases[a]))
    && forall l: nat | l < lo :: (l in m.arrays <==> l in u.arrays) && (l in m.arrays ==> u.arrays[l] == m.arrays[l])
  }

  ghost predicate Delivers(x: Call, m: Mem, o: Outcome, lo: nat, hi: nat, gs: seq<Goal>, fault: bool) {
    match o
    case Stuck => false
    case Failed => fault
    case Ran(u) => !fault && Kept(m, u, lo) && Unused(u, hi) && AllHold(x, u, gs)
  }

  ghost predicate Starts(x: Call, schema: seq<Type>, m: Mem, at: nat, pre: seq<Goal>) {
    CallOk(x, schema) && Unused(m, at) && AllHold(x, m, pre)
  }

  /** Code that, wherever `pre` holds, neither gets stuck nor touches an array below `lo`, reports an error exactly if
      `fault` says so, and otherwise establishes `gs`. It uses names below `at` and from there up to `hi`. */
  ghost predicate ComputesFrom(schema: seq<Type>, pre: seq<Goal>, code: seq<Instr>, lo: nat, at: nat, hi: nat,
                               gs: seq<Goal>, fault: Call -> bool) {
    && Ordered(gs, lo, hi) && lo <= at <= hi
    && forall x, m | Starts(x, schema, m, at, pre) :: Delivers(x, m, Run(x, code, m), lo, hi, gs, fault(x))
  }

  ghost predicate Computes(schema: seq<Type>, code: seq<Instr>, lo: nat, hi: nat, gs: seq<Goal>, fault: Call -> bool) {
    ComputesFrom(schema, [], code, lo, lo, hi, gs, fault)
  }

  ghost function Never(): Call -> bool {
    (x: Call) => false
  }

  ghost function Either(f: Call -> bool, g: Call -> bool): Call -> bool {
    (x: Call) => f(x) || g(x)
  }

  lemma HoldsKept(x: Call, m: Mem, u: Mem, g: Goal, lo: nat)
    requires Kept(m, u, lo) && g.hi <= lo && Holds(x, m, g)
    ensures Holds(x, u, g)
  {
    match g
    case Goal(t, v, _, _, _) =>
      assert Loc(u, v.data) == Loc(m, v.data) && Loc(u, v.isNull) == Loc(m, v.isNull);
      assert Get(u, v.data) == Get(m, v.data) && Get(u, v.isNull) == Get(m, v.isNull);
      if t == Varchar {
        assert Get(u, v.length) == Get(m, v.length);
      }
      assert Read(u, t, v, |x.rows|) == Read(m, t, v, |x.rows|);
    case FlagGoal(name, _, _, _) =>
      assert Loc(u, name) == Loc(m, name) && Get(u, name) == Get(m, name);
  }

  /** Writing elsewhere leaves a claim alone. */
  lemma HoldsPut(x: Call, m: Mem, g: Goal, name: nat, cells: seq<Val>)
    requires Holds(x, m, g) && !(g.lo <= Loc(m, name) < g.hi)
    ensures Holds(x, Put(m, name, cells), g)
  {
    var u := Put(m, name, cells);
    match g
    case Goal(t, v, _, _, _) =>
      assert Get(u, v.data) == Get(m, v.data) && Get(u, v.isNull) == Get(m, v.isNull);
      if t == Varchar {
        assert Get(u, v.length) == Get(m, v.length);
      }
      assert Read(u, t, v, |x.rows|) == Read(m, t, v, |x.rows|);
    case FlagGoal(other, _, _, _) =>
      assert Get(u, other) == Get(m, other);
  }

  lemma KeptTrans(m: Mem, u: Mem, w: Mem, lo: nat, mid: nat)
    requires Kept(m, u, lo) && Kept(u, w, mid) && lo <= mid
    ensures Kept(m, w, lo)
  {
  }

  lemma ComputesNone(schema: seq<Type>, lo: nat)
    ensures Computes(schema, [], lo, lo, [], Never())
  {
    forall x, m | Starts(x, schema, m, lo, []) ensures Delivers(x, m, Run(x, [], m), lo, lo, [], false) {
      assert Kept(m, m, lo);
    }
  }

  /** Two values after one another: the second leaves the first alone. */
  lemma ComputesBoth(schema: seq<Type>, a: seq<Instr>, b: seq<Instr>, lo: nat, mid: nat, hi: nat, gs: seq<Goal>,
                     hs: seq<Goal>, f: Call -> bool, g: Call -> bool)
    requires Computes(schema, a, lo, mid, gs, f) && Computes(schema, b, mid, hi, hs, g)
    ensures Computes(schema, a + b, lo, hi, gs + hs, Either(f, g))
  {
    hide Holds, Run, Unused;
    forall x, m | Starts(x, schema, m, lo, []) ensures Delivers(x, m, Run(x, a + b, m), lo, hi, gs + hs, f(x) || g(x)) {
      RunAppend(x, a, b, m);
      assert Delivers(x, m, Run(x, a, m), lo, mid, gs, f(x));
      if Run(x, a, m).Ran? {
        var u := Run(x, a, m).mem;
        assert Starts(x, schema, u, mid, []);
        assert Delivers(x, u, Run(x, b, u), mid, hi, hs, g(x));
        if Run(x, b, u).Ran? {
          var w := Run(x, b, u).mem;
          KeptTrans(m, u, w, lo, mid);
          BothHold(x, u, w, gs, hs, lo, mid, hi);
        }
      }
    }
  }

  lemma BothHold(x: Call, u: Mem, w: Mem, gs: seq<Goal>, hs: seq<Goal>, lo: nat, mid: nat, hi: nat)
    requires AllHold(x, u, gs) && AllHold(x, w, hs) && Kept(u, w, mid) && Ordered(gs, lo, mid) && Ordered(hs, mid, hi)
    ensures AllHold(x, w, gs + hs)
  {
    hide Holds, Kept;
    forall i | 0 <= i < |gs + hs| ensures Holds(x, w, (gs + hs)[i]) {
      if i < |gs| {
        HoldsKept(x, u, w, gs[i], mid);
      }
    }
  }

  /** Values, then the kernels that combine them. */
  lemma ComputesThen(schema: seq<Type>, a: seq<Instr>, b: seq<Instr>, lo: nat, mid: nat, hi: nat, gs: seq<Goal>,
                     hs: seq<Goal>, f: Call -> bool, g: Call -> bool)
    requires Computes(schema, a, lo, mid, gs, f) && ComputesFrom(schema, gs, b, lo, mid, hi, hs, g)
    ensures Computes(schema, a + b, lo, hi, hs, Either(f, g))
  {
    hide Holds, Run, Unused, Ordered;
    forall x, m | Starts(x, schema, m, lo, []) ensures Delivers(x, m, Run(x, a + b, m), lo, hi, hs, f(x) || g(x)) {
      RunAppend(x, a, b, m);
      assert Delivers(x, m, Run(x, a, m), lo, mid, gs, f(x));
      if Run(x, a, m).Ran? {
        var u := Run(x, a, m).mem;
        assert Starts(x, schema, u, mid, gs);
        assert Delivers(x, u, Run(x, b, u), lo, hi, hs, g(x));
        if Run(x, b, u).Ran? {
          KeptTrans(m, u, Run(x, b, u).mem, lo, lo);
        }
      }
    }
  }

  /** The same claims in other words. */
  lemma ComputesAs(schema: seq<Type>, code: seq<Instr>, lo: nat, hi: nat, g: Goal, h: Goal, f: Call -> bool,
                   f': Call -> bool)
    requires Computes(schema, code, lo, hi, [g], f) && g.Goal? && h.Goal?
    requires h == g.(lo := lo, hi := hi, sem := h.sem)
    requires forall x | CallOk(x, schema) :: g.sem(x) == h.sem(x) && f(x) == f'(x)
    ensures Computes(schema, code, lo, hi, [h], f')
  {
    hide Run, Unused, Kept, Denotes;
    forall x, m | Starts(x, schema, m, lo, []) ensures Delivers(x, m, Run(x, code, m), lo, hi, [h], f'(x)) {
      assert Delivers(x, m, Run(x, code, m), lo, hi, [g], f(x));
      if Run(x, code, m).Ran? {
        assert Holds(x, Run(x, code, m).mem, [g][0]);
        assert Holds(x, Run(x, code, m).mem, h);
      }
    }
  }

  lemma ComputesFault(schema: seq<Type>, code: seq<Instr>, lo: nat, hi: nat, gs: seq<Goal>, f: Call -> bool,
                      f': Call -> bool)
    requires Computes(schema, code, lo, hi, gs, f) && forall x | CallOk(x, schema) :: f(x) == f'(x)
    ensures Computes(schema, code, lo, hi, gs, f')
  {
    hide Run, Unused, Kept, AllHold, CallOk;
    forall x, m | Starts(x, schema, m, lo, []) ensures Delivers(x, m, Run(x, code, m), lo, hi, gs, f'(x)) {
      assert Delivers(x, m, Run(x, code, m), lo, hi, gs, f(x));
    }
  }

  // ---------- writing arrays ----------

  /** A write reaches its own array and no other. */
  lemma PutGet(m: Mem, name: nat, cells: seq<Val>, other: nat)
    ensures Get(Put(m, name, cells), name) == Some(cells)
    ensures Loc(m, other) != Loc(m, name) ==> Get(Put(m, name, cells), other) == Get(m, other)
    ensures Loc(Put(m, name, cells), other) == Loc(m, other)
  {
  }

  lemma PutKept(m: Mem, name: nat, cells: seq<Val>, lo: nat, hi: nat)
    ensures Loc(m, name) >= lo ==> Kept(m, Put(m, name, cells), lo)
    ensures Unused(m, hi) ==> Unused(Put(m, name, cells), hi)
  {
  }

  lemma PutFlagsGet(m: Mem, name: nat, bs: seq<bool>, n: nat)
    requires |bs| == n
    ensures Flags(PutFlags(m, name, bs), name, n) == Some(bs)
  {
    var cells := Cells(bs);
    assert Get(PutFlags(m, name, bs), name) == Some(cells);
    assert seq(n, i requires 0 <= i < n => cells[i].b) == bs;
  }

  /** Reading depends only on the arrays read. */
  lemma SameData(m: Mem, u: Mem, t: Type, v: Vec, n: nat)
    requires Get(m, v.data) == Get(u, v.data) && (t == Varchar ==> Get(m, v.length) == Get(u, v.length))
    ensures Data(m, t, v, n) == Data(u, t, v, n)
  {
  }

  predicate DatumsOk(t: Type, ds: seq<Datum>) {
    forall j | 0 <= j < |ds| :: Typed(t, ds[j].data) && ds[j].len.VInt? && (t != Varchar ==> ds[j].len == VInt(0))
  }

  lemma PutDataGet(m: Mem, t: Type, v: Vec, ds: seq<Datum>, n: nat)
    requires |ds| == n && DatumsOk(t, ds) && (t == Varchar ==> Loc(m, v.data) != Loc(m, v.length))
    ensures Data(PutData(m, t, v, ds), t, v, n) == Some(ds)
  {
    var u := PutData(m, t, v, ds);
    var data, lens := seq(n, i requires 0 <= i < n => ds[i].data), seq(n, i requires 0 <= i < n => ds[i].len);
    assert Get(u, v.data) == Some(data);
    if t == Varchar {
      assert Get(u, v.length) == Some(lens);
    } else {
      assert seq(n, i => VInt(0)) == lens;
    }
    assert DataOk(t, data, lens, n);
    assert seq(n, i requires 0 <= i < n => Datum(data[i], lens[i])) == ds;
  }

  function DatumsOf(args: seq<Arg>): seq<Datum> {
    seq(|args|, i requires 0 <= i < |args| => Datum(args[i].data, args[i].len))
  }

  function FlagsOf(args: seq<Arg>): seq<bool> {
    seq(|args|, i requires 0 <= i < |args| => args[i].isNull)
  }

  lemma ReadIs(m: Mem, t: Type, v: Vec, args: seq<Arg>, n: nat)
    requires |args| == n && Data(m, t, v, n) == Some(DatumsOf(args)) && Flags(m, v.isNull, n) == Some(FlagsOf(args))
    ensures Read(m, t, v, n) == Some(args)
  {
    var ds, bs := DatumsOf(args), FlagsOf(args);
    assert seq(n, i requires 0 <= i < n => Arg(ds[i].data, ds[i].len, bs[i])) == args;
  }

  predicate ArgsTyped(t: Type, args: seq<Arg>) {
    forall j | 0 <= j < |args| ::
      Typed(t, args[j].data) && args[j].len.VInt? && (t != Varchar ==> args[j].len == VInt(0))
  }

  /** Writing a value into arrays of its own and reading it back. */
  lemma WriteRead(m: Mem, t: Type, v: Vec, args: seq<Arg>, n: nat, lo: nat, hi: nat)
    requires |args| == n && ArgsTyped(t, args) && Apart(m, t, v, lo, hi)
    ensures Read(Write(m, t, v, args), t, v, n) == Some(args)
  {
    var ds, bs := DatumsOf(args), FlagsOf(args);
    var m1 := PutData(m, t, v, ds);
    var u := Write(m, t, v, args);
    assert u == PutFlags(m1, v.isNull, bs);
    PutDataGet(m, t, v, ds, n);
    SameData(m1, u, t, v, n);
    PutFlagsGet(m1, v.isNull, bs, n);
    ReadIs(u, t, v, args, n);
  }

  lemma WriteKept(m: Mem, t: Type, v: Vec, args: seq<Arg>, lo: nat, hi: nat, low: nat, high: nat)
    requires Apart(m, t, v, lo, hi) && low <= lo && Unused(m, high)
    ensures Kept(m, Write(m, t, v, args), low) && Unused(Write(m, t, v, args), high)
    ensures Apart(Write(m, t, v, args), t, v, lo, hi)
  {
  }

  /** What is written denotes what its cells denote. */
  lemma Written(x: Call, m: Mem, g: Goal, args: seq<Arg>, low: nat, high: nat)
    requires g.Goal? && Apart(m, g.t, g.v, g.lo, g.hi) && low <= g.lo && Unused(m, high)
    requires |args| == |x.rows| == |g.sem(x)| && ArgsTyped(g.t, args)
    requires forall j | 0 <= j < |args| :: ArgOk(g.t, args[j]) && SqlOf(g.t, args[j]) == g.sem(x)[j]
    ensures var u := Write(m, g.t, g.v, args); Holds(x, u, g) && Kept(m, u, low) && Unused(u, high)
  {
    WriteRead(m, g.t, g.v, args, |args|, g.lo, g.hi);
    WriteKept(m, g.t, g.v, args, g.lo, g.hi, low, high);
  }

  /** Names never used before stand for themselves. */
  lemma FreshNames(m: Mem, at: nat, name: nat)
    requires Unused(m, at) && name >= at
    ensures Loc(m, name) == name
  {
  }

  // ---------- flags ----------

  lemma PutFlagsOther(m: Mem, name: nat, bs: seq<bool>, other: nat, n: nat)
    requires Loc(m, other) != Loc(m, name)
    ensures Flags(PutFlags(m, name, bs), other, n) == Flags(m, other, n)
  {
    PutGet(m, name, Cells(bs), other);
  }

  /** A boolean array is data as well. */
  lemma FlagsAreData(m: Mem, v: Vec, n: nat, bs: seq<bool>)
    requires Flags(m, v.data, n) == Some(bs)
    ensures Data(m, Boolean, v, n) == Some(seq(n, j requires 0 <= j < n => Datum(VBool(bs[j]), VInt(0))))
  {
    var a, lens := Get(m, v.data).value, seq(n, i => VInt(0));
    assert forall j | 0 <= j < n :: a[j].b == bs[j];
    assert DataOk(Boolean, a, lens, n);
    assert seq(n, i requires 0 <= i < n => Datum(a[i], lens[i])) ==
      seq(n, j requires 0 <= j < n => Datum(VBool(bs[j]), VInt(0)));
  }

  /** Data flags and null flags make a boolean column. */
  lemma FlagsDenote(m: Mem, v: Vec, n: nat, ds: seq<bool>, bs: seq<bool>, sqls: seq<Sql>)
    requires Flags(m, v.data, n) == Some(ds) && Flags(m, v.isNull, n) == Some(bs) && |sqls| == n
    requires forall j | 0 <= j < n :: sqls[j] == if bs[j] then Null else Value(VBool(ds[j]))
    ensures Denotes(m, Boolean, v, n, sqls)
  {
    FlagsAreData(m, v, n, ds);
  }

  /** What is known of a value's arrays. */
  lemma DenotesParts(m: Mem, t: Type, v: Vec, n: nat, sqls: seq<Sql>) returns (ds: seq<Datum>, bs: seq<bool>)
    requires Denotes(m, t, v, n, sqls)
    ensures Data(m, t, v, n) == Some(ds) && Flags(m, v.isNull, n) == Some(bs) && |ds| == n && |bs| == n &&
      DatumsOk(t, ds)
    ensures forall j | 0 <= j < n ::
      ArgOk(t, Arg(ds[j].data, ds[j].len, bs[j])) && SqlOf(t, Arg(ds[j].data, ds[j].len, bs[j])) == sqls[j]
  {
    ds, bs := Data(m, t, v, n).value, Flags(m, v.isNull, n).value;
    forall j | 0 <= j < n ensures ArgOk(t, Arg(ds[j].data, ds[j].len, bs[j])) &&
      SqlOf(t, Arg(ds[j].data, ds[j].len, bs[j])) == sqls[j] {
      assert Read(m, t, v, n).value[j] == Arg(ds[j].data, ds[j].len, bs[j]);
    }
  }

  /** And of a boolean value's. */
  lemma BooleanParts(m: Mem, v: Vec, n: nat, sqls: seq<Sql>) returns (ds: seq<bool>, bs: seq<bool>)
    requires Denotes(m, Boolean, v, n, sqls)
    ensures Flags(m, v.data, n) == Some(ds) && Flags(m, v.isNull, n) == Some(bs) && |ds| == n && |bs| == n
    ensures forall j | 0 <= j < n :: sqls[j] == if bs[j] then Null else Value(VBool(ds[j]))
  {
    var datums, nulls := DenotesParts(m, Boolean, v, n, sqls);
    bs := nulls;
    var a := Get(m, v.data).value;
    assert forall j | 0 <= j < n :: a[j] == datums[j].data;
    ds := Flags(m, v.data, n).value;
  }

  /** A value as a sequence of arguments. */
  lemma DenotesArgs(m: Mem, t: Type, v: Vec, n: nat, sqls: seq<Sql>) returns (args: seq<Arg>)
    requires Denotes(m, t, v, n, sqls)
    ensures Read(m, t, v, n) == Some(args) && |args| == n && ArgsTyped(t, args)
    ensures forall j | 0 <= j < n :: ArgOk(t, args[j]) && SqlOf(t, args[j]) == sqls[j]
  {
    args := Read(m, t, v, n).value;
    var ds, _ := DenotesParts(m, t, v, n, sqls);
    assert forall j | 0 <= j < n :: args[j].len == ds[j].len;
  }

  // ---------- short code ----------

  lemma RunOne(x: Call, i: Instr, m: Mem)
    ensures Run(x, [i], m) == Exec(x, i, m)
  {
    hide Exec;
    assert Run(x, [i][..0], m) == Ran(m);
  }

  lemma RunCons(x: Call, i: Instr, rest: seq<Instr>, m: Mem)
    ensures Run(x, [i] + rest, m) == Follow(x, Exec(x, i, m), rest)
  {
    hide Exec;
    RunOne(x, i, m);
    RunAppend(x, [i], rest, m);
  }

  lemma RunTwo(x: Call, i: Instr, j: Instr, m: Mem)
    ensures Exec(x, i, m).Ran? ==> Run(x, [i, j], m) == Exec(x, j, Exec(x, i, m).mem)
  {
    hide Exec;
    assert [i, j] == [i] + [j];
    RunCons(x, i, [j], m);
    if Exec(x, i, m).Ran? {
      RunOne(x, j, Exec(x, i, m).mem);
    }
  }

  lemma ExecOr(x: Call, a: nat, b: nat, m: Mem, p: seq<bool>, q: seq<bool>)
    requires Flags(m, a, |x.rows|) == Some(p) && Flags(m, b, |x.rows|) == Some(q)
    ensures |p| == |q| && Exec(x, OrI(a, b), m) == Ran(PutFlags(m, a, Ored(p, q)))
  {
    hide Flags, PutFlags, Ored;
  }

  lemma ExecAnd(x: Call, a: nat, b: nat, m: Mem, p: seq<bool>, q: seq<bool>)
    requires Flags(m, a, |x.rows|) == Some(p) && Flags(m, b, |x.rows|) == Some(q)
    ensures |p| == |q| && Exec(x, AndI(a, b), m) == Ran(PutFlags(m, a, Anded(p, q)))
  {
    hide Flags, PutFlags, Anded;
  }

  lemma ExecCmp(x: Call, op: CmpOp, t: Type, l: Vec, r: Vec, dst: nat, m: Mem, p: seq<Datum>, q: seq<Datum>)
    requires Data(m, t, l, |x.rows|) == Some(p) && Data(m, t, r, |x.rows|) == Some(q)
    ensures |p| == |q| == |x.rows| && AllTyped(t, p) && AllTyped(t, q)
    ensures Exec(x, CmpI(op, t, l, r, dst), m) == Ran(PutFlags(m, dst, Compared(x.batch.kernels, op, t, p, q)))
  {
    hide Data, PutFlags, Compared;
  }

  /** A flag goal writes nothing but its own array. */
  lemma FlagsHold(x: Call, m: Mem, g: Goal, bs: seq<bool>, low: nat, high: nat)
    requires g.FlagGoal? && g.lo <= g.name < g.hi && g.lo <= Loc(m, g.name) < g.hi && low <= g.lo && Unused(m, high)
    requires |bs| == |x.rows| && bs == g.flags(x)
    ensures var u := PutFlags(m, g.name, bs); Holds(x, u, g) && Kept(m, u, low) && Unused(u, high)
  {
    PutFlagsGet(m, g.name, bs, |x.rows|);
    PutKept(m, g.name, Cells(bs), low, high);
  }

  // ---------- several values ----------

  ghost function SemsAt(gs: seq<Goal>, x: Call, j: nat): (r: seq<Sql>)
    ensures |r| == |gs|
  {
    seq(|gs|, i requires 0 <= i < |gs| => if gs[i].Goal? && j < |gs[i].sem(x)| then gs[i].sem(x)[j] else Null)
  }

  /** The goals are values of these types held in these arrays. */
  ghost predicate Vectors(gs: seq<Goal>, ts: seq<Type>, vs: seq<Vec>) {
    |gs| == |ts| == |vs| && forall i | 0 <= i < |gs| :: gs[i].Goal? && gs[i].t == ts[i] && gs[i].v == vs[i]
  }

  /** Row `j` of several values. */
  ghost predicate RowOf(gs: seq<Goal>, x: Call, args: seq<seq<Arg>>, j: nat) {
    && |args| == |gs|
    && forall i | 0 <= i < |gs| ::
      gs[i].Goal? && j < |args[i]| && j < |gs[i].sem(x)| && ArgOk(gs[i].t, args[i][j]) &&
      SqlOf(gs[i].t, args[i][j]) == gs[i].sem(x)[j]
  }

  lemma {:induction false} ReadsAll(x: Call, m: Mem, gs: seq<Goal>, ts: seq<Type>, vs: seq<Vec>)
                                    returns (args: seq<seq<Arg>>)
    requires Vectors(gs, ts, vs) && forall i | 0 <= i < |gs| :: Holds(x, m, gs[i])
    ensures ReadAll(m, ts, vs, |x.rows|) == Some(args) && |args| == |gs|
    ensures forall i | 0 <= i < |gs| :: |args[i]| == |x.rows| && ArgsTyped(ts[i], args[i])
    ensures forall j | 0 <= j < |x.rows| :: RowOf(gs, x, args, j)
  {
    hide Read, Apart, LenOk;
    if |gs| == 0 {
      args := [];
    } else {
      var k := |gs| - 1;
      var front := ReadsAll(x, m, gs[..k], ts[..k], vs[..k]);
      assert Holds(x, m, gs[k]);
      var last := DenotesArgs(m, ts[k], vs[k], |x.rows|, gs[k].sem(x));
      args := front + [last];
      forall j | 0 <= j < |x.rows| ensures RowOf(gs, x, args, j) {
        assert RowOf(gs[..k], x, front, j);
        forall i | 0 <= i < |gs| ensures j < |args[i]| && j < |gs[i].sem(x)| && ArgOk(gs[i].t, args[i][j]) &&
          SqlOf(gs[i].t, args[i][j]) == gs[i].sem(x)[j] {
          if i < k {
            assert gs[..k][i] == gs[i] && args[i] == front[i];
          }
        }
      }
    }
  }
}
