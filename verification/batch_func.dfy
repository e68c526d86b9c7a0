/** Function calls over arrays. The null flags of the arguments are joined into an array of their own while the
    arguments are computed; the kernel writes its results, and where it has them a null and an overflow flag. */
module BatchFuncProofs {
  import opened SqlValues
  import opened Expressions
  import opened Selection
  import opened BatchIR
  import opened BatchSteps
  import opened BatchMeaning
  import opened BatchProofs

  /** The flags joined so far. */
  ghost function JoinedNulls(gs: seq<Goal>, joins: bool): Call -> seq<bool> {
    (x: Call) => seq(|x.rows|, j requires 0 <= j < |x.rows| => joins && Null in SemsAt(gs, x, j))
  }

  ghost function NoFlags(): Call -> seq<bool> {
    (x: Call) => seq(|x.rows|, _ => false)
  }

  /** The flag arrays a call sets up before its arguments, and the first name behind them. */
  ghost function Setup(lo: nat, variant: bool, flags: Call -> seq<bool>): (r: seq<Goal>) {
    [FlagGoal(lo, lo, lo + 1, flags)] + if variant then [FlagGoal(lo + 1, lo + 1, lo + 2, NoFlags())] else []
  }

  function SetupEnd(lo: nat, variant: bool): nat {
    if variant then lo + 2 else lo + 1
  }

  function SetupCode(lo: nat, variant: bool): seq<Instr> {
    [FillNullI(lo, false)] + if variant then [FillNullI(lo + 1, false)] else []
  }

  lemma SetupComputes(schema: seq<Type>, lo: nat, variant: bool, joins: bool)
    ensures Computes(schema, SetupCode(lo, variant), lo, SetupEnd(lo, variant),
      Setup(lo, variant, JoinedNulls([], joins)), Never())
  {
    hide Kept, Flags;
    var gs := Setup(lo, variant, JoinedNulls([], joins));
    forall x, m | Starts(x, schema, m, lo, []) ensures Delivers(x, m, Run(x, SetupCode(lo, variant), m), lo,
      SetupEnd(lo, variant), gs, false) {
      var none := seq(|x.rows|, _ => false);
      assert none == JoinedNulls([], joins)(x) && none == NoFlags()(x);
      FreshNames(m, lo, lo);
      FlagsHold(x, m, gs[0], none, lo, lo + 2);
      PutKept(m, lo, Cells(none), lo, lo + 1);
      var m1 := PutFlags(m, lo, none);
      if variant {
        FreshNames(m1, lo + 1, lo + 1);
        FlagsHold(x, m1, gs[1], none, lo, lo + 2);
        HoldsPut(x, m1, gs[0], lo + 1, Cells(none));
        KeptTrans(m, m1, PutFlags(m1, lo + 1, none), lo, lo);
        RunTwo(x, FillNullI(lo, false), FillNullI(lo + 1, false), m);
        assert SetupCode(lo, variant) == [FillNullI(lo, false), FillNullI(lo + 1, false)];
      } else {
        assert SetupCode(lo, variant) == [FillNullI(lo, false)];
        RunOne(x, FillNullI(lo, false), m);
      }
    }
  }

  // ---------- joining an argument's null flags ----------

  lemma JoinedMore(gs: seq<Goal>, g: Goal, x: Call, nulls: seq<bool>)
    requires g.Goal? && |g.sem(x)| == |x.rows| == |nulls| && forall j | 0 <= j < |x.rows| ::
      nulls[j] == g.sem(x)[j].Null?
    ensures JoinedNulls(gs + [g], true)(x) == Ored(JoinedNulls(gs, true)(x), nulls)
  {
    var more, joined := JoinedNulls(gs + [g], true)(x), Ored(JoinedNulls(gs, true)(x), nulls);
    forall j | 0 <= j < |x.rows| ensures more[j] == joined[j] {
      assert SemsAt(gs + [g], x, j) == SemsAt(gs, x, j) + [g.sem(x)[j]];
    }
  }

  lemma JoinArg(schema: seq<Type>, lo: nat, variant: bool, gs: seq<Goal>, g: Goal, at: nat)
    requires g.Goal? && ColumnOf(schema, g, g.t) && Ordered(gs + [g], SetupEnd(lo, variant), at)
    ensures Ordered(Setup(lo, variant, JoinedNulls(gs + [g], true)) + (gs + [g]), lo, at)
    ensures ComputesFrom(schema, Setup(lo, variant, JoinedNulls(gs, true)) + (gs + [g]), [OrI(lo, g.v.isNull)], lo, at,
      at,
                         Setup(lo, variant, JoinedNulls(gs + [g], true)) + (gs + [g]), Never())
  {
    hide Kept, Holds, Unused;
    var pre, post := Setup(lo, variant, JoinedNulls(gs, true)), Setup(lo, variant, JoinedNulls(gs + [g], true));
    OrderedSetup(lo, variant, JoinedNulls(gs + [g], true), gs + [g], at);
    forall x, m | Starts(x, schema, m, at, pre + (gs + [g]))
      ensures Delivers(x, m, Run(x, [OrI(lo, g.v.isNull)], m), lo, at, post + (gs + [g]), false) {
      var all := pre + (gs + [g]);
      assert Holds(x, m, all[0]) && Holds(x, m, all[|all| - 1]);
      assert all[0] == pre[0] && all[|all| - 1] == g;
      var u := JoinRuns(x, m, lo, variant, gs, g, at);
      forall i | 0 <= i < |post + (gs + [g])| ensures Holds(x, u, (post + (gs + [g]))[i]) {
        if i > 0 {
          assert (post + (gs + [g]))[i] == all[i] && Holds(x, m, all[i]);
          assert lo + 1 <= all[i].lo;
          HoldsAbove(x, m, u, lo, all[i]);
        }
      }
    }
  }

  /** A function that sees the null flags itself has none joined. */
  lemma SkipArg(schema: seq<Type>, lo: nat, variant: bool, gs: seq<Goal>, g: Goal, at: nat)
    requires Ordered(gs + [g], SetupEnd(lo, variant), at)
    ensures ComputesFrom(schema, Setup(lo, variant, JoinedNulls(gs, false)) + (gs + [g]), [], lo, at, at,
                         Setup(lo, variant, JoinedNulls(gs + [g], false)) + (gs + [g]), Never())
  {
    hide Unused, Flags;
    var pre, post := Setup(lo, variant, JoinedNulls(gs, false)), Setup(lo, variant, JoinedNulls(gs + [g], false));
    OrderedSetup(lo, variant, JoinedNulls(gs + [g], false), gs + [g], at);
    forall x, m | Starts(x, schema, m, at, pre + (gs + [g]))
      ensures Delivers(x, m, Run(x, [], m), lo, at, post + (gs + [g]), false) {
      assert JoinedNulls(gs, false)(x) == JoinedNulls(gs + [g], false)(x);
      forall i | 0 <= i < |post + (gs + [g])| ensures Holds(x, m, (post + (gs + [g]))[i]) {
        assert Holds(x, m, (pre + (gs + [g]))[i]);
      }
    }
  }

  /** Only the flag array was written. */
  ghost predicate OneWritten(m: Mem, u: Mem, name: nat) {
    exists cells :: u == Put(m, name, cells)
  }

  lemma HoldsAbove(x: Call, m: Mem, u: Mem, lo: nat, g: Goal)
    requires Holds(x, m, g) && OneWritten(m, u, lo) && Loc(m, lo) == lo && g.lo > lo
    ensures Holds(x, u, g)
  {
    var cells :| u == Put(m, lo, cells);
    HoldsPut(x, m, g, lo, cells);
  }

  lemma JoinRuns(x: Call, m: Mem, lo: nat, variant: bool, gs: seq<Goal>, g: Goal, at: nat) returns (u: Mem)
    requires g.Goal? && |g.sem(x)| == |x.rows| && Unused(m, at) && Holds(x, m, g)
    requires Holds(x, m, Setup(lo, variant, JoinedNulls(gs, true))[0])
    ensures Run(x, [OrI(lo, g.v.isNull)], m) == Ran(u) && OneWritten(m, u, lo) && Loc(m, lo) == lo && Kept(m, u, lo) &&
      Unused(u, at)
    ensures Holds(x, u, Setup(lo, variant, JoinedNulls(gs + [g], true))[0])
  {
    hide Flags, Kept, Exec, Data, Ored;
    var _, bs := DenotesParts(m, g.t, g.v, |x.rows|, g.sem(x));
    var joined := JoinedNulls(gs, true)(x);
    ExecOr(x, lo, g.v.isNull, m, joined, bs);
    RunOne(x, OrI(lo, g.v.isNull), m);
    JoinedMore(gs, g, x, bs);
    u := PutFlags(m, lo, Ored(joined, bs));
    FlagsHold(x, m, Setup(lo, variant, JoinedNulls(gs + [g], true))[0], Ored(joined, bs), lo, at);
    assert u == Put(m, lo, Cells(Ored(joined, bs)));
  }

  lemma OrderedSetup(lo: nat, variant: bool, flags: Call -> seq<bool>, gs: seq<Goal>, at: nat)
    requires Ordered(gs, SetupEnd(lo, variant), at)
    ensures Ordered(Setup(lo, variant, flags) + gs, lo, at)
  {
  }

  // ---------- the call ----------

  /** Where the result's null flags are. */
  function NullName(sig: FnSig, lo: nat, at: nat): nat {
    if ReturnsNull(sig) then at + 2 else lo
  }

  function CallInstr(sig: FnSig, variant: bool, vs: seq<Vec>, lo: nat, at: nat): Instr {
    CallFnI(sig, variant, vs, lo, Vec(at, NullName(sig, lo, at), at + 1), if ReturnsNull(sig) then Some(at + 2)
      else None, if variant then Some(lo + 1) else None)
  }

  function CallCode(sig: FnSig, variant: bool, vs: seq<Vec>, lo: nat, at: nat): seq<Instr> {
    (if ReturnsNull(sig) then [FillNullI(at + 2, false)] else [])
    + ([CallInstr(sig, variant, vs, lo, at)] + if variant then [OrI(NullName(sig, lo, at), lo + 1)] else [])
  }

  /** The names a call writes stand for themselves and differ. */
  predicate CallNames(m: Mem, lo: nat, at: nat, variant: bool) {
    && Unused(m, at) && SetupEnd(lo, variant) <= at && Loc(m, lo) == lo && (variant ==> Loc(m, lo + 1) == lo + 1)
  }

  lemma NamesApart(m: Mem, lo: nat, at: nat, variant: bool)
    requires CallNames(m, lo, at, variant)
    ensures Loc(m, at) == at && Loc(m, at + 1) == at + 1 && Loc(m, at + 2) == at + 2
  {
  }

  /** The memory once the kernel has run. */
  function After(m: Mem, sig: FnSig, variant: bool, outs: seq<FnOut>, lo: nat, at: nat): Mem {
    PutOuts(m, sig.ret, outs, Vec(at, NullName(sig, lo, at), at + 1), if ReturnsNull(sig) then Some(at + 2)
      else None, if variant then Some(lo + 1) else None)
  }

  /** The memory once data and returned nulls are written. */
  function Returned(m: Mem, sig: FnSig, outs: seq<FnOut>, lo: nat, at: nat): Mem {
    var m1 := PutData(m, sig.ret, Vec(at, NullName(sig, lo, at), at + 1), OutDatums(sig.ret, outs));
    if ReturnsNull(sig) then PutFlags(m1, at + 2, OutNulls(outs)) else m1
  }

  /** The results are in their arrays, and the arrays below are as they were. */
  ghost predicate ResultsWritten(m: Mem, u: Mem, sig: FnSig, outs: seq<FnOut>, flags: seq<bool>, lo: nat, at: nat,
                                 n: nat) {
    && Kept(m, u, lo) && Unused(u, at) && u.aliases == m.aliases
    && Data(u, sig.ret, Vec(at, NullName(sig, lo, at), at + 1), n) == Some(OutDatums(sig.ret, outs))
    && Flags(u, NullName(sig, lo, at), n) == Some(if ReturnsNull(sig) then OutNulls(outs) else flags)
  }

  lemma ReturnedIs(m: Mem, sig: FnSig, variant: bool, outs: seq<FnOut>, flags: seq<bool>, lo: nat, at: nat, n: nat)
    requires CallNames(m, lo, at, variant) && |outs| == n && Flags(m, lo, n) == Some(flags) &&
      DatumsOk(sig.ret, OutDatums(sig.ret, outs))
    ensures ResultsWritten(m, Returned(m, sig, outs, lo, at), sig, outs, flags, lo, at, n)
  {
    hide Flags, Data, OutDatums, OutNulls, Kept;
    NamesApart(m, lo, at, variant);
    var v, t := Vec(at, NullName(sig, lo, at), at + 1), sig.ret;
    OutLengths(t, outs);
    var ds, ns := OutDatums(t, outs), OutNulls(outs);
    var m1 := PutData(m, t, v, ds);
    PutDataGet(m, t, v, ds, n);
    PutDataFlags(m, t, v, ds, lo, n, lo);
    if ReturnsNull(sig) {
      var m2 := PutFlags(m1, at + 2, ns);
      SameData(m1, m2, t, v, n);
      PutFlagsGet(m1, at + 2, ns, n);
      PutKept(m1, at + 2, Cells(ns), lo, at);
      KeptTrans(m, m1, m2, lo, lo);
    }
  }

  lemma AfterIs(m: Mem, sig: FnSig, variant: bool, outs: seq<FnOut>, flags: seq<bool>, lo: nat, at: nat, n: nat)
    requires CallNames(m, lo, at, variant) && |outs| == n && Flags(m, lo, n) == Some(flags) &&
      DatumsOk(sig.ret, OutDatums(sig.ret, outs))
    ensures var u := After(m, sig, variant, outs, lo, at);
      ResultsWritten(m, u, sig, outs, flags, lo, at, n) && (variant ==> Flags(u, lo + 1, n) == Some(OutOverflows(outs)))
  {
    hide Flags, Data, OutDatums, OutNulls, OutOverflows, Kept, PutData;
    NamesApart(m, lo, at, variant);
    ReturnedIs(m, sig, variant, outs, flags, lo, at, n);
    OutLengths(sig.ret, outs);
    if variant {
      var m2, os := Returned(m, sig, outs, lo, at), OutOverflows(outs);
      var m3 := PutFlags(m2, lo + 1, os);
      SameData(m2, m3, sig.ret, Vec(at, NullName(sig, lo, at), at + 1), n);
      PutFlagsGet(m2, lo + 1, os, n);
      PutFlagsOther(m2, lo + 1, os, NullName(sig, lo, at), n);
      PutKept(m2, lo + 1, Cells(os), lo, at);
      KeptTrans(m, m2, m3, lo, lo);
    }
  }

  lemma OutLengths(t: Type, outs: seq<FnOut>)
    ensures |OutDatums(t, outs)| == |OutNulls(outs)| == |OutOverflows(outs)| == |outs|
  {
  }

  lemma PutDataFlags(m: Mem, t: Type, v: Vec, ds: seq<Datum>, name: nat, n: nat, low: nat)
    requires Loc(m, name) != Loc(m, v.data) && Loc(m, name) != Loc(m, v.length) && Loc(m, v.data) >= low &&
      Loc(m, v.length) >= low
    ensures Flags(PutData(m, t, v, ds), name, n) == Flags(m, name, n) && Kept(m, PutData(m, t, v, ds), low)
  {
    assert Get(PutData(m, t, v, ds), name) == Get(m, name);
  }

  /** What each row's call yields. */
  ghost predicate OutDenotes(t: Type, sig: FnSig, variant: bool, out: FnOut, flag: bool, sql: Sql) {
    var a := Arg(out.data, VInt(out.len), (if ReturnsNull(sig) then out.isNull else flag) || (variant && out.overflow));
    ArgOk(t, a) && SqlOf(t, a) == sql
  }

  lemma RowsDenote(x: Call, sig: FnSig, variant: bool, gs: seq<Goal>, vs: seq<Vec>, args: seq<seq<Arg>>,
                   flags: seq<bool>, j: nat)
    requires KernelsOk(x.batch.kernels) && Vectors(gs, sig.params, vs) && |args| == |gs| && j < |x.rows| == |flags|
    requires (forall c | 0 <= c < |args| :: |args[c]| == |flags|) && RowOf(gs, x, args, j)
    requires flags == JoinedNulls(gs, Joins(sig, variant))(x)
    ensures OutDenotes(sig.ret, sig, variant, CallRows(x.batch.kernels, sig, variant, args, flags)[j], flags[j],
      FuncSql(x.batch.kernels, sig, variant, SemsAt(gs, x, j)))
  {
    hide KernelsOk, FuncSql, CallRow, LenOk;
    var row, sqls := At(args, j), SemsAt(gs, x, j);
    assert forall i | 0 <= i < |row| :: ArgOk(sig.params[i], row[i]) && SqlOf(sig.params[i], row[i]) == sqls[i];
    CallDenotes(x.batch.kernels, sig, variant, row, sqls, flags[j]);
  }

  lemma CallRuns(x: Call, m: Mem, sig: FnSig, variant: bool, gs: seq<Goal>, vs: seq<Vec>, k: Goal, lo: nat, at: nat)
    requires Vectors(gs, sig.params, vs) && Ordered(gs, SetupEnd(lo, variant), at) && Unused(m, at) &&
      KernelsOk(x.batch.kernels)
    requires forall i | 0 <= i < |gs| :: Holds(x, m, gs[i])
    requires var pre := Setup(lo, variant, JoinedNulls(gs, Joins(sig, variant)));
      forall i | 0 <= i < |pre| :: Holds(x, m, pre[i])
    requires k.Goal? && k == Goal(sig.ret, Vec(at, NullName(sig, lo, at), at + 1), lo, at + 3, k.sem) &&
      |k.sem(x)| == |x.rows|
    requires forall j | 0 <= j < |x.rows| :: k.sem(x)[j] == FuncSql(x.batch.kernels, sig, variant, SemsAt(gs, x, j))
    ensures Delivers(x, m, Run(x, CallCode(sig, variant, vs, lo, at), m), lo, at + 3, [k], false)
  {
    hide Kept, Flags, Data, FuncSql, KernelsOk, Holds, CallCode, After, Unused, JoinedNulls;
    var pre := Setup(lo, variant, JoinedNulls(gs, Joins(sig, variant)));
    SetupNames(x, m, lo, variant, JoinedNulls(gs, Joins(sig, variant)), at);
    var flags := JoinedNulls(gs, Joins(sig, variant))(x);
    var m0 := PrepRuns(x, m, sig, variant, lo, at, gs, flags);
    var outs := KernelRuns(x, m0, sig, variant, gs, vs, flags, lo, at, k);
    var u := LastRuns(x, After(m0, sig, variant, outs, lo, at), sig, variant, outs, flags, lo, at, k);
    CodeRuns(x, m, m0, After(m0, sig, variant, outs, lo, at), u, sig, variant, vs, lo, at);
    KeptTrans(m, m0, After(m0, sig, variant, outs, lo, at), lo, lo);
    KeptTrans(m, After(m0, sig, variant, outs, lo, at), u, lo, lo);
  }

  lemma SetupNames(x: Call, m: Mem, lo: nat, variant: bool, flags: Call -> seq<bool>, at: nat)
    requires var pre := Setup(lo, variant, flags); forall i | 0 <= i < |pre| :: Holds(x, m, pre[i])
    requires Unused(m, at) && SetupEnd(lo, variant) <= at
    ensures CallNames(m, lo, at, variant) && Flags(m, lo, |x.rows|) == Some(flags(x))
  {
    hide Flags, Unused;
    assert Holds(x, m, Setup(lo, variant, flags)[0]);
    if variant {
      assert Holds(x, m, Setup(lo, variant, flags)[1]);
    }
  }

  /** The result's null flags cleared, where the kernel writes them. */
  lemma PrepRuns(x: Call, m: Mem, sig: FnSig, variant: bool, lo: nat, at: nat, gs: seq<Goal>, flags: seq<bool>)
                 returns (m0: Mem)
    requires CallNames(m, lo, at, variant) && Ordered(gs, SetupEnd(lo, variant), at) &&
      Flags(m, lo, |x.rows|) == Some(flags)
    requires forall i | 0 <= i < |gs| :: Holds(x, m, gs[i])
    ensures m0 == if ReturnsNull(sig) then PutFlags(m, at + 2, seq(|x.rows|, _ => false)) else m
    ensures CallNames(m0, lo, at, variant) && Kept(m, m0, lo) && Flags(m0, lo, |x.rows|) == Some(flags)
    ensures forall i | 0 <= i < |gs| :: Holds(x, m0, gs[i])
  {
    hide Flags, Holds;
    NamesApart(m, lo, at, variant);
    var none := seq(|x.rows|, _ => false);
    m0 := if ReturnsNull(sig) then PutFlags(m, at + 2, none) else m;
    if ReturnsNull(sig) {
      PutFlagsOther(m, at + 2, none, lo, |x.rows|);
      forall i | 0 <= i < |gs| ensures Holds(x, m0, gs[i]) {
        HoldsPut(x, m, gs[i], at + 2, Cells(none));
      }
    }
  }

  /** The kernel runs, and each row's results denote the function. */
  lemma KernelRuns(x: Call, m: Mem, sig: FnSig, variant: bool, gs: seq<Goal>, vs: seq<Vec>, flags: seq<bool>, lo: nat,
                   at: nat, k: Goal) returns (outs: seq<FnOut>)
    requires Vectors(gs, sig.params, vs) && KernelsOk(x.batch.kernels) && CallNames(m, lo, at, variant)
    requires (forall i | 0 <= i < |gs| :: Holds(x, m, gs[i])) && Flags(m, lo, |x.rows|) == Some(flags) &&
      flags == JoinedNulls(gs, Joins(sig, variant))(x)
    requires k.Goal? && |k.sem(x)| == |x.rows| && forall j | 0 <= j < |x.rows| ::
      k.sem(x)[j] == FuncSql(x.batch.kernels, sig, variant, SemsAt(gs, x, j))
    ensures Exec(x, CallInstr(sig, variant, vs, lo, at), m) == Ran(After(m, sig, variant, outs, lo, at)) &&
      |outs| == |flags| == |x.rows|
    ensures forall j | 0 <= j < |x.rows| :: OutDenotes(sig.ret, sig, variant, outs[j], flags[j], k.sem(x)[j])
    ensures var u := After(m, sig, variant, outs, lo, at); Kept(m, u, lo) && CallNames(u, lo, at, variant)
    ensures var u := After(m, sig, variant, outs, lo, at);
      Data(u, sig.ret, Vec(at, NullName(sig, lo, at), at + 1), |x.rows|) == Some(OutDatums(sig.ret, outs))
    ensures var u := After(m, sig, variant, outs, lo, at);
      Flags(u, NullName(sig, lo, at), |x.rows|) == Some(if ReturnsNull(sig) then OutNulls(outs) else flags)
    ensures variant ==> Flags(After(m, sig, variant, outs, lo, at), lo + 1, |x.rows|) == Some(OutOverflows(outs))
  {
    hide Flags, Holds, Kept, Data, FuncSql, KernelsOk, CallRows, JoinedNulls, PutOuts, Read;
    var args := ReadsAll(x, m, gs, sig.params, vs);
    outs := CallRows(x.batch.kernels, sig, variant, args, flags);
    forall j | 0 <= j < |x.rows| ensures OutDenotes(sig.ret, sig, variant, outs[j], flags[j], k.sem(x)[j]) {
      assert RowOf(gs, x, args, j);
      RowsDenote(x, sig, variant, gs, vs, args, flags, j);
    }
    AfterIs(m, sig, variant, outs, flags, lo, at, |x.rows|);
  }

  /** The overflow flags joined in, when there are some. */
  lemma LastRuns(x: Call, m: Mem, sig: FnSig, variant: bool, outs: seq<FnOut>, flags: seq<bool>, lo: nat, at: nat,
                 k: Goal) returns (u: Mem)
    requires CallNames(m, lo, at, variant) && |outs| == |flags| == |x.rows|
    requires k.Goal? && k == Goal(sig.ret, Vec(at, NullName(sig, lo, at), at + 1), lo, at + 3, k.sem) &&
      |k.sem(x)| == |x.rows|
    requires forall j | 0 <= j < |x.rows| :: OutDenotes(sig.ret, sig, variant, outs[j], flags[j], k.sem(x)[j])
    requires Data(m, sig.ret, k.v, |x.rows|) == Some(OutDatums(sig.ret, outs))
    requires Flags(m, k.v.isNull, |x.rows|) == Some(if ReturnsNull(sig) then OutNulls(outs) else flags)
    requires variant ==> Flags(m, lo + 1, |x.rows|) == Some(OutOverflows(outs))
    ensures Run(x, if variant then [OrI(NullName(sig, lo, at), lo + 1)] else [], m) == Ran(u)
    ensures Kept(m, u, lo) && Unused(u, at + 3) && Holds(x, u, k)
  {
    hide Flags, Kept, Data, Exec, Ored;
    NamesApart(m, lo, at, variant);
    var n, v := |x.rows|, k.v;
    OutLengths(sig.ret, outs);
    var nulls := if ReturnsNull(sig) then OutNulls(outs) else flags;
    if variant {
      ExecOr(x, v.isNull, lo + 1, m, nulls, OutOverflows(outs));
      RunOne(x, OrI(v.isNull, lo + 1), m);
      nulls := Ored(nulls, OutOverflows(outs));
      u := PutFlags(m, v.isNull, nulls);
      PutFlagsGet(m, v.isNull, nulls, n);
      SameData(m, u, sig.ret, v, n);
      PutKept(m, v.isNull, Cells(nulls), lo, at + 3);
    } else {
      u := m;
      SelfKept(m, lo);
    }
    var args := seq(n, j requires 0 <= j < n => Arg(outs[j].data, VInt(if sig.ret == Varchar then outs[j].len else 0),
      nulls[j]));
    assert DatumsOf(args) == OutDatums(sig.ret, outs) && FlagsOf(args) == nulls;
    ReadIs(u, sig.ret, v, args, n);
    forall j | 0 <= j < n ensures ArgOk(sig.ret, args[j]) && SqlOf(sig.ret, args[j]) == k.sem(x)[j] {
      assert OutDenotes(sig.ret, sig, variant, outs[j], flags[j], k.sem(x)[j]);
    }
  }

  lemma SelfKept(m: Mem, lo: nat)
    ensures Kept(m, m, lo)
  {
  }

  lemma CodeRuns(x: Call, m: Mem, m0: Mem, m1: Mem, u: Mem, sig: FnSig, variant: bool, vs: seq<Vec>, lo: nat, at: nat)
    requires m0 == if ReturnsNull(sig) then PutFlags(m, at + 2, seq(|x.rows|, _ => false)) else m
    requires Exec(x, CallInstr(sig, variant, vs, lo, at), m0) == Ran(m1)
    requires Run(x, if variant then [OrI(NullName(sig, lo, at), lo + 1)] else [], m1) == Ran(u)
    ensures Run(x, CallCode(sig, variant, vs, lo, at), m) == Ran(u)
  {
    hide Run, PutFlags, CallInstr;
    var call, last := CallInstr(sig, variant, vs, lo, at), if variant then [OrI(NullName(sig, lo, at), lo + 1)] else [];
    RunCons(x, call, last, m0);
    if ReturnsNull(sig) {
      RunCons(x, FillNullI(at + 2, false), [call] + last, m);
    } else {
      assert CallCode(sig, variant, vs, lo, at) == [call] + last;
    }
  }

  lemma CallComputes(schema: seq<Type>, sig: FnSig, variant: bool, gs: seq<Goal>, vs: seq<Vec>, k: Goal, lo: nat,
                     at: nat)
    requires Vectors(gs, sig.params, vs) && Ordered(gs, SetupEnd(lo, variant), at) && ColumnOf(schema, k, sig.ret)
    requires forall i | 0 <= i < |gs| :: ColumnOf(schema, gs[i], sig.params[i])
    requires k == Goal(sig.ret, Vec(at, NullName(sig, lo, at), at + 1), lo, at + 3, k.sem)
    requires forall x, j | CallOk(x, schema) && 0 <= j < |x.rows| ::
      k.sem(x)[j] == FuncSql(x.batch.kernels, sig, variant, SemsAt(gs, x, j))
    ensures ComputesFrom(schema, Setup(lo, variant, JoinedNulls(gs, Joins(sig, variant))) + gs,
      CallCode(sig, variant, vs, lo, at), lo, at, at + 3, [k], Never())
  {
    hide Kept, Holds, Unused, FuncSql, CallCode, KernelsOk;
    var pre := Setup(lo, variant, JoinedNulls(gs, Joins(sig, variant)));
    forall x, m | Starts(x, schema, m, at, pre + gs) ensures Delivers(x, m,
      Run(x, CallCode(sig, variant, vs, lo, at), m), lo, at + 3, [k], false) {
      forall i | 0 <= i < |gs| ensures Holds(x, m, gs[i]) {
        assert (pre + gs)[|pre| + i] == gs[i];
      }
      forall i | 0 <= i < |pre| ensures Holds(x, m, pre[i]) {
        assert (pre + gs)[i] == pre[i];
      }
      CallRuns(x, m, sig, variant, gs, vs, k, lo, at);
    }
  }
}
