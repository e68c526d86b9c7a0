/** The column-at-a-time expression compiler: each Visit method emits kernel calls and yields the names of the
    arrays that hold the node's value. Kernels overwrite their operands, so what matters is that every visit works
    in arrays of its own. */
module BatchCodegen {
  import opened SqlValues
  import opened Expressions
  import opened Selection
  import opened BatchIR
  import opened BatchDivision
  import opened BatchSteps
  import opened BatchMeaning
  import opened BatchProofs
  import opened BatchFuncProofs
  import opened BatchColumns

  /** Types with arrays. */
  predicate ArrayType(t: Type) {
    t != Byte && t != Short
  }

  predicate NumberType(t: Type) {
    t == Int || t == Date32 || t == Long || t == Timestamp
  }

  /** Trees the batch back end has kernels for. A field or a call of a type without arrays, a boolean literal (its fill
      kernel writes cells of another width, see `BatchFill`), a COALESCE of dates and arithmetic on dates and timestamps
      (registered under other result types) have none. */
  predicate Shared(e: Expr) {
    match e
    case Literal(ty, _, _) => ty != Boolean
    case Field(ty, _) => ArrayType(ty)
    case Not(x) => Shared(x)
    case Binary(op, l, r) => Shared(l) && Shared(r) && (op.Arith? ==> TypeOf(l) != Date32 && TypeOf(l) != Timestamp)
    case In(es) => forall i | 0 <= i < |es| :: Shared(es[i])
    case Between(v, lo, hi) => Shared(v) && Shared(lo) && Shared(hi)
    case If(c, t, f) => Shared(c) && Shared(t) && Shared(f)
    case Switch(ws, els) => (forall i | 0 <= i < |ws| :: Shared(ws[i].0) && Shared(ws[i].1)) && Shared(els)
    case Coalesce(a, b) => Shared(a) && Shared(b) && TypeOf(a) != Date32
    case IsNull(x) => Shared(x)
    case Func(sig, args) => ArrayType(sig.ret) && forall i | 0 <= i < |args| :: Shared(args[i])
  }

  predicate BinaryCompiles(op: BinaryOp, t: Type) {
    match op
    case And => true
    case Or => true
    case Compare(_) => NumberType(t) || t == Varchar
    case Arith(a) => NumberType(t) && (a == ADD || a == SUB || a == MUL || a == DIV || a == MOD)
  }

  /** The trees this compiler has code for. */
  predicate BatchCompilable(e: Expr) {
    match e
    case Literal(ty, _, _) => ArrayType(ty)
    case Field(_, _) => true
    case Not(x) => BatchCompilable(x)
    case Binary(op, l, r) => BatchCompilable(l) && BatchCompilable(r) && BinaryCompiles(op, TypeOf(l))
    case In(es) => |es| > 0 && (forall i | 0 <= i < |es| :: BatchCompilable(es[i])) && ArrayType(TypeOf(es[0]))
    case Between(v, lo, hi) =>
      BatchCompilable(v) && BatchCompilable(lo) && BatchCompilable(hi) &&
        (NumberType(TypeOf(v)) || TypeOf(v) == Varchar)
    case If(c, t, f) => BatchCompilable(c) && BatchCompilable(t) && BatchCompilable(f) && ArrayType(TypeOf(t))
    case Switch(ws, els) =>
      (forall i | 0 <= i < |ws| ::
        BatchCompilable(ws[i].0) && BatchCompilable(ws[i].1)) && BatchCompilable(els) && ArrayType(TypeOf(els))
    case Coalesce(a, b) => BatchCompilable(a) && BatchCompilable(b) && ArrayType(TypeOf(a))
    case IsNull(x) => BatchCompilable(x)
    case Func(_, args) => forall i | 0 <= i < |args| :: BatchCompilable(args[i])
  }

  /** Success exactly on compilable trees, and then the code emitted computes the tree's column, or reports an error
      exactly when some row does, in arrays from `lo` to `hi` and touching none below. */
  ghost predicate Done(schema: seq<Type>, ov: bool, was: seq<Instr>, code: seq<Instr>, lo: nat, hi: nat, e: Expr,
                       v: Option<Vec>)
    requires WellTyped(e, schema)
  {
    && (v.Some? <==> BatchCompilable(e)) && was <= code
    && (v.Some? ==>
      lo <= hi && Computes(schema, code[|was|..], lo, hi, [G(schema, ov, e, v.value, lo, hi)], FaultSem(schema, ov, e)))
  }

  /** Values, kernels that combine them, and the claim in the tree's own terms. */
  lemma Combined(schema: seq<Type>, ov: bool, was: seq<Instr>, mid: seq<Instr>, tail: seq<Instr>, lo: nat, at: nat,
                 hi: nat, gs: seq<Goal>, k: Goal,
                 f: Call -> bool, tf: Call -> bool, e: Expr, v: Vec)
    requires WellTyped(e, schema) && BatchCompilable(e) && was <= mid
    requires Computes(schema, mid[|was|..], lo, at, gs, f) && ComputesFrom(schema, gs, tail, lo, at, hi, [k], tf)
    requires k.Goal? && k == G(schema, ov, e, v, k.lo, k.hi)
    requires forall x | CallOk(x, schema) :: (f(x) || tf(x)) == FaultSem(schema, ov, e)(x)
    ensures Done(schema, ov, was, mid + tail, lo, hi, e, Some(v))
  {
    hide ComputesFrom, CallOk, ColumnSem, FaultSem;
    ComputesThen(schema, mid[|was|..], tail, lo, at, hi, gs, [k], f, tf);
    assert (mid + tail)[|was|..] == mid[|was|..] + tail;
    ComputesAs(schema, mid[|was|..] + tail, lo, hi, k, G(schema, ov, e, v, lo, hi), Either(f, tf),
      FaultSem(schema, ov, e));
    ComputesBounds(schema, (mid + tail)[|was|..], lo, hi, [G(schema, ov, e, v, lo, hi)], FaultSem(schema, ov, e));
  }

  lemma ComputesBounds(schema: seq<Type>, code: seq<Instr>, lo: nat, hi: nat, gs: seq<Goal>, f: Call -> bool)
    requires Computes(schema, code, lo, hi, gs, f)
    ensures lo <= hi && Ordered(gs, lo, hi)
  {
  }

  /** Two operands visited one after the other. */
  lemma TwoValues(schema: seq<Type>, was: seq<Instr>, a: seq<Instr>, b: seq<Instr>, lo: nat, mid: nat, hi: nat, g: Goal,
                  h: Goal, f: Call -> bool, f2: Call -> bool)
    requires was <= a <= b && Computes(schema, a[|was|..], lo, mid, [g], f) &&
      Computes(schema, b[|a|..], mid, hi, [h], f2)
    ensures Computes(schema, b[|was|..], lo, hi, [g, h], Either(f, f2)) && was <= b
  {
    hide ComputesFrom;
    ComputesBoth(schema, a[|was|..], b[|a|..], lo, mid, hi, [g], [h], f, f2);
    assert a[|was|..] + b[|a|..] == b[|was|..] && [g] + [h] == [g, h];
  }

  lemma ThreeValues(schema: seq<Type>, was: seq<Instr>, a: seq<Instr>, b: seq<Instr>, c: seq<Instr>, lo: nat, mid: nat,
                    mid2: nat, hi: nat,
                    g: Goal, h: Goal, k: Goal, f: Call -> bool, f2: Call -> bool, f3: Call -> bool)
    requires was <= a <= b <= c
    requires Computes(schema, a[|was|..], lo, mid, [g], f) && Computes(schema, b[|a|..], mid, mid2, [h], f2) &&
      Computes(schema, c[|b|..], mid2, hi, [k], f3)
    ensures Computes(schema, c[|was|..], lo, hi, [g, h, k], Either(Either(f, f2), f3)) && was <= c
  {
    hide ComputesFrom;
    TwoValues(schema, was, a, b, lo, mid, mid2, g, h, f, f2);
    ComputesBoth(schema, b[|was|..], c[|b|..], lo, mid2, hi, [g, h], [k], Either(f, f2), f3);
    assert b[|was|..] + c[|b|..] == c[|was|..] && [g, h] + [k] == [g, h, k];
  }

  /** A literal or a field: no operands, no errors. */
  lemma Leaf(schema: seq<Type>, ov: bool, was: seq<Instr>, c: seq<Instr>, lo: nat, hi: nat, e: Expr, v: Vec)
    requires WellTyped(e, schema) && BatchCompilable(e) && (e.Literal? || e.Field?)
    requires Computes(schema, c, lo, hi, [G(schema, ov, e, v, lo, hi)], Never())
    ensures Done(schema, ov, was, was + c, lo, hi, e, Some(v))
  {
    hide ComputesFrom, CallOk, ColumnSem, FaultSem;
    forall x | CallOk(x, schema) ensures FaultSem(schema, ov, e)(x) == Never()(x) {
      NoFaults(schema, ov, e, x);
    }
    ComputesFault(schema, c, lo, hi, [G(schema, ov, e, v, lo, hi)], Never(), FaultSem(schema, ov, e));
    ComputesBounds(schema, c, lo, hi, [G(schema, ov, e, v, lo, hi)], FaultSem(schema, ov, e));
    assert (was + c)[|was|..] == c;
  }

  /** Nothing visited yet. */
  lemma NoValues(schema: seq<Type>, ov: bool, was: seq<Instr>, lo: nat)
    ensures Computes(schema, was[|was|..], lo, lo, [], AnyFault(schema, ov, [])) && Mean(schema, ov, [], [])
  {
    hide ComputesFrom, CallOk;
    ComputesNone(schema, lo);
    ComputesFault(schema, [], lo, lo, [], Never(), AnyFault(schema, ov, []));
    assert was[|was|..] == [];
  }

  /** One more value visited. */
  lemma NextValue(schema: seq<Type>, ov: bool, was: seq<Instr>, mid: seq<Instr>, code: seq<Instr>, lo: nat, at: nat,
                  hi: nat, gs: seq<Goal>, es: seq<Expr>, e: Expr, v: Vec)
    requires WellTyped(e, schema) && Mean(schema, ov, [], []) && was <= mid &&
      Done(schema, ov, mid, code, at, hi, e, Some(v))
    requires (forall i | 0 <= i < |es| :: WellTyped(es[i], schema)) &&
      Computes(schema, mid[|was|..], lo, at, gs, AnyFault(schema, ov, es))
    ensures forall i | 0 <= i < |es + [e]| :: WellTyped((es + [e])[i], schema)
    ensures Computes(schema, code[|was|..], lo, hi, gs + [G(schema, ov, e, v, at, hi)],
      AnyFault(schema, ov, es + [e])) && was <= code
  {
    hide ComputesFrom, CallOk, ColumnSem, FaultSem, AnyFault, WellTyped, BatchCompilable;
    forall i | 0 <= i < |es + [e]| ensures WellTyped((es + [e])[i], schema) {}
    var g := G(schema, ov, e, v, at, hi);
    ComputesBoth(schema, mid[|was|..], code[|mid|..], lo, at, hi, gs, [g], AnyFault(schema, ov, es),
      FaultSem(schema, ov, e));
    assert mid[|was|..] + code[|mid|..] == code[|was|..];
    forall x | CallOk(x, schema) ensures AnyFault(schema, ov, es + [e])(x) ==
      Either(AnyFault(schema, ov, es), FaultSem(schema, ov, e))(x) {
      AnyFaultMore(schema, ov, es, e, x);
    }
    ComputesFault(schema, code[|was|..], lo, hi, gs + [g], Either(AnyFault(schema, ov, es), FaultSem(schema, ov, e)),
      AnyFault(schema, ov, es + [e]));
  }

  lemma MeanMore(schema: seq<Type>, ov: bool, gs: seq<Goal>, es: seq<Expr>, e: Expr, v: Vec, lo: nat, hi: nat)
    requires WellTyped(e, schema) && Mean(schema, ov, gs, es)
    ensures Mean(schema, ov, gs + [G(schema, ov, e, v, lo, hi)], es + [e])
  {
    hide WellTyped, ColumnSem;
  }

  lemma NoMean(schema: seq<Type>, ov: bool)
    ensures Mean(schema, ov, [], [])
  {
  }

  lemma CompilesIn(es: seq<Expr>)
    ensures BatchCompilable(In(es)) <==>
      |es| > 0 && (forall i | 0 <= i < |es| :: BatchCompilable(es[i])) && ArrayType(TypeOf(es[0]))
  {
  }

  lemma InOperands(es: seq<Expr>, schema: seq<Type>)
    requires WellTyped(In(es), schema)
    ensures |es| >= 2 && forall i | 0 <= i < |es| :: WellTyped(es[i], schema) && TypeOf(es[i]) == TypeOf(es[0])
  {
  }

  lemma MeanTail(schema: seq<Type>, ov: bool, gs: seq<Goal>, es: seq<Expr>)
    requires Mean(schema, ov, gs, es) && |es| > 0
    ensures |gs| > 0 && Mean(schema, ov, gs[1..], es[1..])
  {
    hide ColumnSem, WellTyped;
    forall i | 0 <= i < |gs[1..]| ensures gs[1..][i] == gs[i + 1] && es[1..][i] == es[i + 1] {}
  }

  lemma InDone(schema: seq<Type>, ov: bool, was: seq<Instr>, c0: seq<Instr>, lo: nat, at: nat, es: seq<Expr>,
               gs: seq<Goal>, vs: seq<Vec>, arrays: Vec)
    requires WellTyped(In(es), schema) && BatchCompilable(In(es)) && was <= c0 && Mean(schema, ov, gs, es) &&
      arrays == Vec(at, at + 1, at + 2)
    requires Computes(schema, c0[|was|..], lo, at, gs, AnyFault(schema, ov, es)) && |vs| == |gs| &&
      forall j | 0 <= j < |vs| :: gs[j].v == vs[j]
    ensures Done(schema, ov, was, c0 + [InI(TypeOf(es[0]), vs[0], vs[1..], arrays)], lo, at + 3, In(es), Some(arrays))
  {
    hide ComputesFrom, ColumnSem, FaultSem, AnyFault, BatchCompilable, CallOk, BatchInSql, WellTyped;
    InOperands(es, schema);
    MeanTail(schema, ov, gs, es);
    var t, e, g, hs := TypeOf(es[0]), In(es), gs[0], gs[1..];
    ComputesBounds(schema, c0[|was|..], lo, at, gs, AnyFault(schema, ov, es));
    assert [g] + hs == gs;
    var k := G(schema, ov, e, arrays, lo, at + 3);
    SemOfIn(schema, ov, es, hs);
    GColumn(schema, ov, e, arrays, lo, at + 3);
    ColumnsOf(schema, ov, gs, es);
    assert forall i | 0 <= i < |hs| :: hs[i] == gs[i + 1];
    InComputes(schema, t, g, hs, vs[1..], k, lo, at);
    forall c | CallOk(c, schema) ensures (AnyFault(schema, ov, es)(c) || Never()(c)) == FaultSem(schema, ov, e)(c) {
      FaultsList(schema, ov, e, es, c);
    }
    Combined(schema, ov, was, c0, [InI(t, vs[0], vs[1..], arrays)], lo, at, at + 3, gs, k, AnyFault(schema, ov, es),
      Never(), e, arrays);
  }

  lemma ColumnsOf(schema: seq<Type>, ov: bool, gs: seq<Goal>, es: seq<Expr>)
    requires Mean(schema, ov, gs, es)
    ensures forall i | 0 <= i < |gs| :: ColumnOf(schema, gs[i], TypeOf(es[i]))
  {
    hide ColumnSem, WellTyped;
    forall i | 0 <= i < |gs| ensures ColumnOf(schema, gs[i], TypeOf(es[i])) {
      GColumn(schema, ov, es[i], gs[i].v, gs[i].lo, gs[i].hi);
    }
  }

  // ---------- CASE ----------

  lemma CompilesSwitch(ws: seq<(Expr, Expr)>, els: Expr)
    ensures BatchCompilable(Switch(ws, els)) <==>
      (forall i | 0 <= i < |ws| ::
        BatchCompilable(ws[i].0) && BatchCompilable(ws[i].1)) && BatchCompilable(els) && ArrayType(TypeOf(els))
  {
  }

  /** The values visited so far: all of them, the conditions, the results. */
  datatype Cases = Cases(gs: seq<Goal>, cs: seq<Goal>, rs: seq<Goal>)
  {
    ghost predicate Ready(schema: seq<Type>, ov: bool, ws: seq<(Expr, Expr)>, i: nat, cvs: seq<Vec>, rvs: seq<Vec>)
      requires i <= |ws|
    {
      && Mean(schema, ov, cs, Firsts(ws[..i])) && Mean(schema, ov, rs, Seconds(ws[..i])) && |gs| == 2 * i &&
        |cs| == |rs| == |cvs| == |rvs| == i
      && (forall j | 0 <= j < |Visited(ws[..i])| :: WellTyped(Visited(ws[..i])[j], schema))
      && forall j | 0 <= j < i :: gs[2 * j] == cs[j] && gs[2 * j + 1] == rs[j] && cs[j].v == cvs[j] && rs[j].v == rvs[j]
    }

    lemma ReadyMore(schema: seq<Type>, ov: bool, ws: seq<(Expr, Expr)>, i: nat, cvs: seq<Vec>, rvs: seq<Vec>, cv: Vec,
                    rv: Vec, lo: nat, mid: nat, hi: nat)
      requires i < |ws| && Ready(schema, ov, ws, i, cvs, rvs) && WellTyped(ws[i].0, schema) &&
        WellTyped(ws[i].1, schema)
      ensures var c, r := G(schema, ov, ws[i].0, cv, lo, mid), G(schema, ov, ws[i].1, rv, mid, hi);
        Cases(gs + [c] + [r], cs + [c], rs + [r]).Ready(schema, ov, ws, i + 1, cvs + [cv], rvs + [rv])
    {
      hide WellTyped, ColumnSem, Mean, Visited;
      MeanMore(schema, ov, cs, Firsts(ws[..i]), ws[i].0, cv, lo, mid);
      MeanMore(schema, ov, rs, Seconds(ws[..i]), ws[i].1, rv, mid, hi);
      assert Firsts(ws[..i + 1]) == Firsts(ws[..i]) + [ws[i].0] && Seconds(ws[..i + 1]) == Seconds(ws[..i]) + [ws[i].1];
      NextBranch(ws, i);
      var es := Visited(ws[..i]);
      forall j | 0 <= j < |es + [ws[i].0] + [ws[i].1]| ensures WellTyped((es + [ws[i].0] + [ws[i].1])[j], schema) {}
    }
  }

  lemma NoBranches(schema: seq<Type>, ov: bool, ws: seq<(Expr, Expr)>)
    ensures ws[..0] == [] && Visited([]) == [] && Cases([], [], []).Ready(schema, ov, ws, 0, [], [])
  {
  }

  lemma NextBranch(ws: seq<(Expr, Expr)>, i: nat)
    requires i < |ws|
    ensures Visited(ws[..i + 1]) == Visited(ws[..i]) + [ws[i].0] + [ws[i].1]
  {
    assert ws[..i + 1][..i] == ws[..i];
  }

  /** The first `i` branches visited. */
  ghost predicate BranchesVisited(schema: seq<Type>, ov: bool, was: seq<Instr>, code: seq<Instr>, lo: nat, hi: nat,
                                  ws: seq<(Expr, Expr)>, i: nat, x: Cases, cvs: seq<Vec>, rvs: seq<Vec>) {
    && i <= |ws| && was <= code && lo <= hi && x.Ready(schema, ov, ws, i, cvs, rvs)
    && Computes(schema, code[|was|..], lo, hi, x.gs, AnyFault(schema, ov, Visited(ws[..i])))
  }

  lemma NoBranchesVisited(schema: seq<Type>, ov: bool, was: seq<Instr>, lo: nat, ws: seq<(Expr, Expr)>)
    ensures BranchesVisited(schema, ov, was, was, lo, lo, ws, 0, Cases([], [], []), [], [])
  {
    hide ComputesFrom, AnyFault;
    NoValues(schema, ov, was, lo);
    NoBranches(schema, ov, ws);
  }

  /** One more branch visited. */
  lemma BranchVisited(schema: seq<Type>, ov: bool, was: seq<Instr>, mid: seq<Instr>, mid2: seq<Instr>, code: seq<Instr>,
                      lo: nat, at: nat, at2: nat, hi: nat,
                      ws: seq<(Expr, Expr)>, i: nat, x: Cases, cvs: seq<Vec>, rvs: seq<Vec>, cv: Vec, rv: Vec)
                        returns (y: Cases)
    requires i < |ws| && WellTyped(ws[i].0, schema) && WellTyped(ws[i].1, schema) &&
      BranchesVisited(schema, ov, was, mid, lo, at, ws, i, x, cvs, rvs)
    requires Done(schema, ov, mid, mid2, at, at2, ws[i].0, Some(cv)) &&
      Done(schema, ov, mid2, code, at2, hi, ws[i].1, Some(rv))
    ensures BranchesVisited(schema, ov, was, code, lo, hi, ws, i + 1, y, cvs + [cv], rvs + [rv])
  {
    hide ComputesFrom, ColumnSem, FaultSem, AnyFault, Mean, BatchCompilable, WellTyped, Visited;
    NoMean(schema, ov);
    NextBranch(ws, i);
    NextValue(schema, ov, was, mid, mid2, lo, at, at2, x.gs, Visited(ws[..i]), ws[i].0, cv);
    var c, r := G(schema, ov, ws[i].0, cv, at, at2), G(schema, ov, ws[i].1, rv, at2, hi);
    NextValue(schema, ov, was, mid2, code, lo, at2, hi, x.gs + [c], Visited(ws[..i]) + [ws[i].0], ws[i].1, rv);
    x.ReadyMore(schema, ov, ws, i, cvs, rvs, cv, rv, at, at2, hi);
    y := Cases(x.gs + [c] + [r], x.cs + [c], x.rs + [r]);
  }

  lemma SwitchDone(schema: seq<Type>, ov: bool, was: seq<Instr>, mid: seq<Instr>, c0: seq<Instr>, lo: nat, last: nat,
                   at: nat, ws: seq<(Expr, Expr)>, els: Expr, x: Cases,
                   cvs: seq<Vec>, rvs: seq<Vec>, ev: Vec, arrays: Vec)
    requires WellTyped(Switch(ws, els), schema) && BatchCompilable(Switch(ws, els)) && arrays == Vec(at, at + 1, at + 2)
    requires BranchesVisited(schema, ov, was, mid, lo, last, ws, |ws|, x, cvs, rvs) && WellTyped(els, schema) &&
      Done(schema, ov, mid, c0, last, at, els, Some(ev))
    ensures Done(schema, ov, was, c0 + [SwitchI(TypeOf(els), cvs, rvs, ev, arrays)], lo, at + 3, Switch(ws, els),
      Some(arrays))
  {
    hide ComputesFrom, ColumnSem, FaultSem, AnyFault, BatchCompilable, CallOk, FirstSql, WellTyped, Visited,
      Cases.Ready;
    assert ws[..|ws|] == ws;
    VisitedTyped(schema, ws, els);
    NoMean(schema, ov);
    var t, node, es, e := TypeOf(els), Switch(ws, els), Visited(ws) + [els], G(schema, ov, els, ev, last, at);
    NextValue(schema, ov, was, mid, c0, lo, last, at, x.gs, Visited(ws), els, ev);
    ComputesBounds(schema, c0[|was|..], lo, at, x.gs + [e], AnyFault(schema, ov, es));
    var k := G(schema, ov, node, arrays, lo, at + 3);
    CasesMean(schema, ov, ws, els, x, cvs, rvs, e);
    SemOfSwitch(schema, ov, ws, els, x.cs, x.rs);
    GColumn(schema, ov, node, arrays, lo, at + 3);
    GColumn(schema, ov, els, ev, last, at);
    BranchColumns(schema, ov, ws, els, x, cvs, rvs);
    SwitchComputes(schema, t, x.gs + [e], x.cs, x.rs, e, cvs, rvs, k, lo, at);
    forall c | CallOk(c, schema) ensures (AnyFault(schema, ov, es)(c) || Never()(c)) == FaultSem(schema, ov, node)(c) {
      FaultsSwitch(schema, ov, ws, els, c);
      AnyFaultMore(schema, ov, Visited(ws), els, c);
    }
    Combined(schema, ov, was, c0, [SwitchI(t, cvs, rvs, ev, arrays)], lo, at, at + 3, x.gs + [e], k,
      AnyFault(schema, ov, es), Never(), node, arrays);
  }

  lemma CasesMean(schema: seq<Type>, ov: bool, ws: seq<(Expr, Expr)>, els: Expr, x: Cases, cvs: seq<Vec>, rvs: seq<Vec>,
                  e: Goal)
    requires WellTyped(Switch(ws, els), schema) && x.Ready(schema, ov, ws, |ws|, cvs, rvs)
    ensures Mean(schema, ov, x.cs, Firsts(ws)) && Mean(schema, ov, x.rs, Seconds(ws)) &&
      Turns(x.gs + [e], x.cs, x.rs, e)
  {
    hide ColumnSem, Visited, WellTyped, Mean;
    assert ws[..|ws|] == ws;
  }

  lemma BranchColumns(schema: seq<Type>, ov: bool, ws: seq<(Expr, Expr)>, els: Expr, x: Cases, cvs: seq<Vec>,
                      rvs: seq<Vec>)
    requires WellTyped(Switch(ws, els), schema) && x.Ready(schema, ov, ws, |ws|, cvs, rvs)
    ensures |x.cs| == |x.rs| == |ws| && forall i | 0 <= i < |ws| ::
      ColumnOf(schema, x.cs[i], Boolean) && ColumnOf(schema, x.rs[i], TypeOf(els))
    ensures Vectors(x.cs, seq(|x.cs|, _ => Boolean), cvs) && Vectors(x.rs, seq(|x.rs|, _ => TypeOf(els)), rvs)
  {
    hide ColumnSem, Visited;
    assert ws[..|ws|] == ws;
    ColumnsOf(schema, ov, x.cs, Firsts(ws));
    ColumnsOf(schema, ov, x.rs, Seconds(ws));
    forall i | 0 <= i < |ws| ensures ColumnOf(schema, x.cs[i], Boolean) && ColumnOf(schema, x.rs[i], TypeOf(els)) {
      assert Firsts(ws)[i] == ws[i].0 && Seconds(ws)[i] == ws[i].1;
    }
  }

  // ---------- calls ----------

  lemma CompilesFunc(sig: FnSig, args: seq<Expr>)
    ensures BatchCompilable(Func(sig, args)) <==> forall i | 0 <= i < |args| :: BatchCompilable(args[i])
  {
  }

  /** The flag arrays set up and these arguments visited, their null flags joined. */
  ghost predicate ArgsVisited(schema: seq<Type>, ov: bool, sig: FnSig, args: seq<Expr>, variant: bool, was: seq<Instr>,
                              code: seq<Instr>, lo: nat, hi: nat, gs: seq<Goal>, vs: seq<Vec>) {
    && Mean(schema, ov, gs, args) && was <= code && Ordered(gs, SetupEnd(lo, variant), hi) && lo <= hi
    && |vs| == |gs| && (forall j | 0 <= j < |gs| :: gs[j].v == vs[j])
    && Computes(schema, code[|was|..], lo, hi, Setup(lo, variant, JoinedNulls(gs, Joins(sig, variant))) + gs,
      AnyFault(schema, ov, args))
  }

  lemma SetupDone(schema: seq<Type>, ov: bool, sig: FnSig, args: seq<Expr>, variant: bool, was: seq<Instr>, lo: nat)
    ensures ArgsVisited(schema, ov, sig, args[..0], variant, was, was + SetupCode(lo, variant), lo,
      SetupEnd(lo, variant), [], [])
  {
    hide ComputesFrom, SetupCode, Setup, CallOk;
    var pre := Setup(lo, variant, JoinedNulls([], Joins(sig, variant)));
    SetupComputes(schema, lo, variant, Joins(sig, variant));
    ComputesFault(schema, SetupCode(lo, variant), lo, SetupEnd(lo, variant), pre, Never(), AnyFault(schema, ov, []));
    assert (was + SetupCode(lo, variant))[|was|..] == SetupCode(lo, variant) && pre + [] == pre && args[..0] == [];
  }

  lemma ArgDone(schema: seq<Type>, ov: bool, sig: FnSig, args: seq<Expr>, i: nat, variant: bool, was: seq<Instr>,
                mid: seq<Instr>, c0: seq<Instr>, lo: nat, at: nat, hi: nat,
                gs: seq<Goal>, vs: seq<Vec>, v: Vec)
    requires WellTyped(Func(sig, args), schema) && i < |args| &&
      ArgsVisited(schema, ov, sig, args[..i], variant, was, mid, lo, at, gs, vs)
    requires Done(schema, ov, mid, c0, at, hi, args[i], Some(v))
    ensures var code := if Joins(sig, variant) then c0 + [OrI(lo, v.isNull)] else c0;
      ArgsVisited(schema, ov, sig, args[..i + 1], variant, was, code, lo, hi, gs + [G(schema, ov, args[i], v, at, hi)],
        vs + [v])
  {
    hide ComputesFrom, Setup, CallOk, ColumnSem, FaultSem, AnyFault, BatchCompilable, JoinedNulls, WellTyped, Mean;
    ArgTyped(schema, sig, args, i);
    var joins, g, es := Joins(sig, variant), G(schema, ov, args[i], v, at, hi), args[..i] + [args[i]];
    assert es == args[..i + 1];
    NoMean(schema, ov);
    MeanTyped(schema, ov, gs, args[..i]);
    var pre, post := Setup(lo, variant, JoinedNulls(gs, joins)), Setup(lo, variant, JoinedNulls(gs + [g], joins));
    NextValue(schema, ov, was, mid, c0, lo, at, hi, pre + gs, args[..i], args[i], v);
    MeanMore(schema, ov, gs, args[..i], args[i], v, at, hi);
    assert (pre + gs) + [g] == pre + (gs + [g]);
    assert Ordered(gs + [g], SetupEnd(lo, variant), hi);
    GColumn(schema, ov, args[i], v, at, hi);
    var tail := if joins then [OrI(lo, v.isNull)] else [];
    if joins {
      JoinArg(schema, lo, variant, gs, g, hi);
    } else {
      SkipArg(schema, lo, variant, gs, g, hi);
    }
    ComputesThen(schema, c0[|was|..], tail, lo, hi, hi, pre + (gs + [g]), post + (gs + [g]), AnyFault(schema, ov, es),
      Never());
    assert c0[|was|..] + tail == (c0 + tail)[|was|..] && (!joins ==> c0 + tail == c0);
    ComputesFault(schema, (c0 + tail)[|was|..], lo, hi, post + (gs + [g]), Either(AnyFault(schema, ov, es), Never()),
      AnyFault(schema, ov, es));
  }

  lemma ArgTyped(schema: seq<Type>, sig: FnSig, args: seq<Expr>, i: nat)
    requires WellTyped(Func(sig, args), schema) && i < |args|
    ensures WellTyped(args[i], schema)
  {
  }

  lemma MeanTyped(schema: seq<Type>, ov: bool, gs: seq<Goal>, es: seq<Expr>)
    requires Mean(schema, ov, gs, es)
    ensures |gs| == |es| && (forall i | 0 <= i < |es| :: WellTyped(es[i], schema)) && forall i | 0 <= i < |gs| ::
      gs[i].Goal?
  {
  }

  lemma FuncDone(schema: seq<Type>, ov: bool, sig: FnSig, args: seq<Expr>, variant: bool, was: seq<Instr>,
                 c0: seq<Instr>, lo: nat, at: nat, gs: seq<Goal>, vs: seq<Vec>, arrays: Vec)
    requires WellTyped(Func(sig, args), schema) && BatchCompilable(Func(sig, args)) &&
      variant == (ov && sig.hasNullVariant)
    requires ArgsVisited(schema, ov, sig, args, variant, was, c0, lo, at, gs, vs) &&
      arrays == Vec(at, NullName(sig, lo, at), at + 1)
    ensures Done(schema, ov, was, c0 + CallCode(sig, variant, vs, lo, at), lo, at + 3, Func(sig, args), Some(arrays))
  {
    hide ComputesFrom, Setup, CallOk, ColumnSem, FaultSem, AnyFault, BatchCompilable, JoinedNulls, FuncSql, CallCode;
    var e, pre := Func(sig, args), Setup(lo, variant, JoinedNulls(gs, Joins(sig, variant)));
    var k := G(schema, ov, e, arrays, lo, at + 3);
    SemOfFunc(schema, ov, sig, args, gs);
    GColumn(schema, ov, e, arrays, lo, at + 3);
    ColumnsOf(schema, ov, gs, args);
    CallComputes(schema, sig, variant, gs, vs, k, lo, at);
    forall c | CallOk(c, schema) ensures (AnyFault(schema, ov, args)(c) || Never()(c)) == FaultSem(schema, ov, e)(c) {
      FaultsList(schema, ov, e, args, c);
    }
    Combined(schema, ov, was, c0, CallCode(sig, variant, vs, lo, at), lo, at, at + 3, pre + gs, k,
      AnyFault(schema, ov, args), Never(), e, arrays);
  }

  // ---------- nodes with two or three operands ----------

  /** Both operands of a node in their arrays. */
  ghost predicate Operands(schema: seq<Type>, ov: bool, was: seq<Instr>, c0: seq<Instr>, lo: nat, mid: nat, at: nat,
                           l: Expr, r: Expr, lv: Vec, rv: Vec) {
    && WellTyped(l, schema) && WellTyped(r, schema) && was <= c0 && lo <= mid <= at
    && Computes(schema, c0[|was|..], lo, at, [G(schema, ov, l, lv, lo, mid), G(schema, ov, r, rv, mid, at)],
      Either(FaultSem(schema, ov, l), FaultSem(schema, ov, r)))
  }

  lemma BinaryFaults(schema: seq<Type>, ov: bool, e: Expr, l: Expr, r: Expr)
    requires WellTyped(e, schema) && (e == Coalesce(l, r) ||
      (e.Binary? && !Divides(e.op) && l == e.left && r == e.right))
    ensures forall c | CallOk(c, schema) ::
      (Either(FaultSem(schema, ov, l), FaultSem(schema, ov, r))(c) || Never()(c)) == FaultSem(schema, ov, e)(c)
  {
    hide FaultSem, CallOk;
    forall c | CallOk(c, schema) ensures (Either(FaultSem(schema, ov, l), FaultSem(schema, ov, r))(c) || Never()(c)) ==
      FaultSem(schema, ov, e)(c) {
      FaultsTwo(schema, ov, e, l, r, c);
    }
  }

  lemma LogicDone(schema: seq<Type>, ov: bool, was: seq<Instr>, c0: seq<Instr>, lo: nat, mid: nat, at: nat,
                  op: BinaryOp, l: Expr, r: Expr, lv: Vec, rv: Vec)
    requires WellTyped(Binary(op, l, r), schema) && BatchCompilable(Binary(op, l, r)) && Logic(op) &&
      Operands(schema, ov, was, c0, lo, mid, at, l, r, lv, rv)
    ensures Done(schema, ov, was, c0 + LogicCode(op, lv, rv), lo, at, Binary(op, l, r), Some(lv))
  {
    hide ComputesFrom, ColumnSem, FaultSem, LogicCode, BatchCompilable;
    var e, g, h := Binary(op, l, r), G(schema, ov, l, lv, lo, mid), G(schema, ov, r, rv, mid, at);
    var k := G(schema, ov, e, lv, lo, mid);
    SemOfBinary(schema, ov, op, l, r);
    GColumn(schema, ov, l, lv, lo, mid);
    GColumn(schema, ov, r, rv, mid, at);
    GColumn(schema, ov, e, lv, lo, mid);
    LogicComputes(schema, op, g, h, k, at);
    BinaryFaults(schema, ov, e, l, r);
    Combined(schema, ov, was, c0, LogicCode(op, lv, rv), lo, at, at, [g, h], k,
      Either(FaultSem(schema, ov, l), FaultSem(schema, ov, r)), Never(), e, lv);
  }

  lemma CompareDone(schema: seq<Type>, ov: bool, was: seq<Instr>, c0: seq<Instr>, lo: nat, mid: nat, at: nat, op: CmpOp,
                    l: Expr, r: Expr, lv: Vec, rv: Vec)
    requires WellTyped(Binary(Compare(op), l, r), schema) && BatchCompilable(Binary(Compare(op), l, r)) &&
      Operands(schema, ov, was, c0, lo, mid, at, l, r, lv, rv)
    ensures Done(schema, ov, was, c0 + CompareCode(op, TypeOf(l), lv, rv, at), lo, at + 1, Binary(Compare(op), l, r),
      Some(Vec(at, lv.isNull, at)))
  {
    hide ComputesFrom, ColumnSem, FaultSem, CompareCode;
    var e, g, h := Binary(Compare(op), l, r), G(schema, ov, l, lv, lo, mid), G(schema, ov, r, rv, mid, at);
    var arrays := Vec(at, lv.isNull, at);
    var k := G(schema, ov, e, arrays, lo, at + 1);
    SemOfBinary(schema, ov, Compare(op), l, r);
    GColumn(schema, ov, l, lv, lo, mid);
    GColumn(schema, ov, r, rv, mid, at);
    GColumn(schema, ov, e, arrays, lo, at + 1);
    CompareComputes(schema, op, TypeOf(l), g, h, k, at);
    BinaryFaults(schema, ov, e, l, r);
    Combined(schema, ov, was, c0, CompareCode(op, TypeOf(l), lv, rv, at), lo, at, at + 1, [g, h], k,
      Either(FaultSem(schema, ov, l), FaultSem(schema, ov, r)), Never(), e, arrays);
  }

  lemma ArithDone(schema: seq<Type>, ov: bool, was: seq<Instr>, c0: seq<Instr>, lo: nat, mid: nat, at: nat, op: ArithOp,
                  l: Expr, r: Expr, lv: Vec, rv: Vec)
    requires WellTyped(Binary(Arith(op), l, r), schema) && BatchCompilable(Binary(Arith(op), l, r)) &&
      (op == ADD || op == SUB || op == MUL)
    requires Operands(schema, ov, was, c0, lo, mid, at, l, r, lv, rv)
    ensures Done(schema, ov, was, c0 + ArithCode(op, TypeOf(l), lv, rv), lo, at, Binary(Arith(op), l, r), Some(lv))
  {
    hide ComputesFrom, ColumnSem, FaultSem, ArithCode;
    var e, g, h := Binary(Arith(op), l, r), G(schema, ov, l, lv, lo, mid), G(schema, ov, r, rv, mid, at);
    var k := G(schema, ov, e, lv, lo, mid);
    SemOfBinary(schema, ov, Arith(op), l, r);
    GColumn(schema, ov, l, lv, lo, mid);
    GColumn(schema, ov, r, rv, mid, at);
    GColumn(schema, ov, e, lv, lo, mid);
    ArithComputes(schema, op, TypeOf(l), g, h, k, at);
    BinaryFaults(schema, ov, e, l, r);
    Combined(schema, ov, was, c0, ArithCode(op, TypeOf(l), lv, rv), lo, at, at, [g, h], k,
      Either(FaultSem(schema, ov, l), FaultSem(schema, ov, r)), Never(), e, lv);
  }

  lemma DivideDone(schema: seq<Type>, ov: bool, was: seq<Instr>, c0: seq<Instr>, lo: nat, mid: nat, at: nat,
                   op: ArithOp, l: Expr, r: Expr, lv: Vec, rv: Vec)
    requires WellTyped(Binary(Arith(op), l, r), schema) && BatchCompilable(Binary(Arith(op), l, r)) &&
      (op == DIV || op == MOD)
    requires Operands(schema, ov, was, c0, lo, mid, at, l, r, lv, rv)
    ensures Done(schema, ov, was, c0 + ArithCode(op, TypeOf(l), lv, rv), lo, at, Binary(Arith(op), l, r), Some(lv))
  {
    hide ComputesFrom, ColumnSem, FaultSem, ArithCode, ZeroDivides;
    var e, g, h := Binary(Arith(op), l, r), G(schema, ov, l, lv, lo, mid), G(schema, ov, r, rv, mid, at);
    var k, f := G(schema, ov, e, lv, lo, mid), Either(FaultSem(schema, ov, l), FaultSem(schema, ov, r));
    SemOfBinary(schema, ov, Arith(op), l, r);
    GColumn(schema, ov, l, lv, lo, mid);
    GColumn(schema, ov, r, rv, mid, at);
    GColumn(schema, ov, e, lv, lo, mid);
    DivideComputes(schema, op, TypeOf(l), g, h, k, at);
    forall c | CallOk(c, schema) ensures (f(c) || Zeros(g, h)(c)) == FaultSem(schema, ov, e)(c) {
      FaultsDivision(schema, ov, Arith(op), l, r, c);
    }
    Combined(schema, ov, was, c0, ArithCode(op, TypeOf(l), lv, rv), lo, at, at, [g, h], k, f, Zeros(g, h), e, lv);
  }

  lemma CoalesceDone(schema: seq<Type>, ov: bool, was: seq<Instr>, c0: seq<Instr>, lo: nat, mid: nat, at: nat, l: Expr,
                     r: Expr, lv: Vec, rv: Vec)
    requires WellTyped(Coalesce(l, r), schema) && BatchCompilable(Coalesce(l, r)) &&
      Operands(schema, ov, was, c0, lo, mid, at, l, r, lv, rv)
    ensures Done(schema, ov, was, c0 + [CoalesceI(TypeOf(l), lv, rv)], lo, at, Coalesce(l, r), Some(lv))
  {
    hide ComputesFrom, ColumnSem, FaultSem, BatchCompilable;
    var e, g, h := Coalesce(l, r), G(schema, ov, l, lv, lo, mid), G(schema, ov, r, rv, mid, at);
    var k := G(schema, ov, e, lv, lo, mid);
    SemOfCoalesce(schema, ov, l, r);
    GColumn(schema, ov, l, lv, lo, mid);
    GColumn(schema, ov, r, rv, mid, at);
    GColumn(schema, ov, e, lv, lo, mid);
    CoalesceComputes(schema, TypeOf(l), g, h, k, at);
    BinaryFaults(schema, ov, e, l, r);
    Combined(schema, ov, was, c0, [CoalesceI(TypeOf(l), lv, rv)], lo, at, at, [g, h], k,
      Either(FaultSem(schema, ov, l), FaultSem(schema, ov, r)), Never(), e, lv);
  }

  ghost function ThreeFault(schema: seq<Type>, ov: bool, x: Expr, y: Expr, z: Expr): Call -> bool
    requires WellTyped(x, schema) && WellTyped(y, schema) && WellTyped(z, schema)
  {
    Either(Either(FaultSem(schema, ov, x), FaultSem(schema, ov, y)), FaultSem(schema, ov, z))
  }

  lemma ThreeFaults(schema: seq<Type>, ov: bool, e: Expr, x: Expr, y: Expr, z: Expr)
    requires WellTyped(e, schema) && (e == If(x, y, z) || e == Between(x, y, z))
    ensures forall c | CallOk(c, schema) ::
      (ThreeFault(schema, ov, x, y, z)(c) || Never()(c)) == FaultSem(schema, ov, e)(c)
  {
    hide FaultSem, CallOk;
    forall c | CallOk(c, schema) ensures (ThreeFault(schema, ov, x, y, z)(c) || Never()(c)) ==
      FaultSem(schema, ov, e)(c) {
      FaultsThree(schema, ov, e, x, y, z, c);
    }
  }

  lemma CompilesBetween(x: Expr, y: Expr, z: Expr)
    ensures BatchCompilable(Between(x, y, z)) <==>
      BatchCompilable(x) && BatchCompilable(y) && BatchCompilable(z) && (NumberType(TypeOf(x)) || TypeOf(x) == Varchar)
  {
  }

  lemma BetweenDone(schema: seq<Type>, ov: bool, was: seq<Instr>, c0: seq<Instr>, lo: nat, mid: nat, mid2: nat, at: nat,
                    x: Expr, y: Expr, z: Expr, xv: Vec, yv: Vec, zv: Vec, arrays: Vec)
    requires WellTyped(Between(x, y, z), schema) && BatchCompilable(Between(x, y, z)) && was <= c0 &&
      lo <= mid <= mid2 <= at && arrays == Vec(at, yv.isNull, at)
    requires Computes(schema, c0[|was|..], lo, at, [G(schema, ov, x, xv, lo, mid), G(schema, ov, y, yv, mid, mid2),
      G(schema, ov, z, zv, mid2, at)], ThreeFault(schema, ov, x, y, z))
    ensures Done(schema, ov, was, c0 + (BetweenCmps(TypeOf(x), xv, yv, zv, at) + BetweenJoins(xv, yv, zv, at)), lo, at +
      2, Between(x, y, z), Some(arrays))
  {
    hide ComputesFrom, ColumnSem, FaultSem, BetweenCmps, BetweenJoins, ThreeFault;
    var e, t := Between(x, y, z), TypeOf(x);
    var g, l, u, k := G(schema, ov, x, xv, lo, mid), G(schema, ov, y, yv, mid, mid2), G(schema, ov, z, zv, mid2, at),
      G(schema, ov, e, arrays, lo, at + 2);
    SemOfBetween(schema, ov, x, y, z);
    GColumn(schema, ov, x, xv, lo, mid);
    GColumn(schema, ov, y, yv, mid, mid2);
    GColumn(schema, ov, z, zv, mid2, at);
    GColumn(schema, ov, e, arrays, lo, at + 2);
    BetweenComputes(schema, t, g, l, u, k, at);
    ThreeFaults(schema, ov, e, x, y, z);
    Combined(schema, ov, was, c0, BetweenCmps(t, xv, yv, zv, at) + BetweenJoins(xv, yv, zv, at), lo, at, at + 2,
      [g, l, u], k, ThreeFault(schema, ov, x, y, z), Never(), e, arrays);
  }

  lemma IfDone(schema: seq<Type>, ov: bool, was: seq<Instr>, c0: seq<Instr>, lo: nat, mid: nat, mid2: nat, at: nat,
               x: Expr, y: Expr, z: Expr, xv: Vec, yv: Vec, zv: Vec)
    requires WellTyped(If(x, y, z), schema) && BatchCompilable(If(x, y, z)) && was <= c0 && lo <= mid <= mid2 <= at
    requires Computes(schema, c0[|was|..], lo, at, [G(schema, ov, x, xv, lo, mid), G(schema, ov, y, yv, mid, mid2),
      G(schema, ov, z, zv, mid2, at)], ThreeFault(schema, ov, x, y, z))
    ensures Done(schema, ov, was, c0 + [IfI(TypeOf(y), xv, yv, zv)], lo, at, If(x, y, z), Some(yv))
  {
    hide ComputesFrom, ColumnSem, FaultSem, ThreeFault, BatchCompilable;
    var e := If(x, y, z);
    var c, g, h, k := G(schema, ov, x, xv, lo, mid), G(schema, ov, y, yv, mid, mid2), G(schema, ov, z, zv, mid2, at),
      G(schema, ov, e, yv, mid, mid2);
    SemOfIf(schema, ov, x, y, z);
    GColumn(schema, ov, x, xv, lo, mid);
    GColumn(schema, ov, y, yv, mid, mid2);
    GColumn(schema, ov, z, zv, mid2, at);
    GColumn(schema, ov, e, yv, mid, mid2);
    IfComputes(schema, TypeOf(y), c, g, h, k, lo, at);
    ThreeFaults(schema, ov, e, x, y, z);
    Combined(schema, ov, was, c0, [IfI(TypeOf(y), xv, yv, zv)], lo, at, at, [c, g, h], k,
      ThreeFault(schema, ov, x, y, z), Never(), e, yv);
  }

  class BatchExpressionCodeGen {
    const schema: seq<Type>
    const ov: bool
    var code: seq<Instr>
    var next: nat

    constructor (schema: seq<Type>, ov: bool)
      ensures this.schema == schema && this.ov == ov && code == [] && next == 0
    {
      this.schema := schema;
      this.ov := ov;
      this.code := [];
      this.next := 0;
    }

    ghost function Goal(e: Expr, v: Vec, lo: nat, hi: nat): Goal
      requires WellTyped(e, schema)
    {
      G(schema, ov, e, v, lo, hi)
    }

    method VisitNot(x: Expr) returns (v: Option<Vec>)
      requires WellTyped(Not(x), schema) && Shared(x)
      modifies this
      ensures Done(schema, ov, old(code), code, old(next), next, Not(x), v)
      decreases Not(x), 0
    {
      hide ComputesFrom, ColumnSem, FaultSem;
      ghost var was, lo := code, next;
      var val := VisitExpr(x);
      if val.None? {
        return None;
      }
      v := val;
      ghost var mid, at := code, next;
      code := code + [NotI(val.value.data)];
      ghost var g, k := Goal(x, val.value, lo, at), Goal(Not(x), val.value, lo, at);
      GColumn(schema, ov, x, val.value, lo, at);
      GColumn(schema, ov, Not(x), val.value, lo, at);
      SemOfNot(schema, ov, x);
      NotComputes(schema, g, k, at);
      forall c | CallOk(c, schema) ensures FaultSem(schema, ov, Not(x))(c) == FaultSem(schema, ov, x)(c) {
        FaultsOne(schema, ov, Not(x), x, c);
      }
      Combined(schema, ov, was, mid, [NotI(val.value.data)], lo, at, at, [g], k, FaultSem(schema, ov, x), Never(),
        Not(x), val.value);
    }

    method VisitLiteral(ty: Type, isNull: bool, data: Val) returns (v: Option<Vec>)
      requires WellTyped(Literal(ty, isNull, data), schema) && Shared(Literal(ty, isNull, data))
      modifies this
      ensures Done(schema, ov, old(code), code, old(next), next, Literal(ty, isNull, data), v)
    {
      hide ComputesFrom, ColumnSem, FaultSem;
      if !ArrayType(ty) {
        return None;
      }
      ghost var was, lo := code, next;
      var arrays := Vec(next, next + 1, next + 2);
      next := next + 3;
      code := code + [FillLiteralI(ty, arrays, data, isNull)];
      v := Some(arrays);
      ghost var e := Literal(ty, isNull, data);
      SemOfLiteral(schema, ov, ty, isNull, data);
      GColumn(schema, ov, e, arrays, lo, next);
      LiteralComputes(schema, ty, data, isNull, Goal(e, arrays, lo, next), lo);
      Leaf(schema, ov, was, [FillLiteralI(ty, arrays, data, isNull)], lo, next, e, arrays);
    }

    method VisitField(ty: Type, col: nat) returns (v: Option<Vec>)
      requires WellTyped(Field(ty, col), schema) && Shared(Field(ty, col))
      modifies this
      ensures Done(schema, ov, old(code), code, old(next), next, Field(ty, col), v)
    {
      hide ComputesFrom, ColumnSem, FaultSem, FieldCode;
      ghost var was, lo := code, next;
      var arrays := Vec(next + 4, next + 6, next + 5);
      code := code + FieldCode(ty, col, next);
      next := next + 7;
      v := Some(arrays);
      ghost var e := Field(ty, col);
      SemOfField(schema, ov, ty, col);
      GColumn(schema, ov, e, arrays, lo, next);
      FieldComputes(schema, ty, col, Goal(e, arrays, lo, next), lo);
      Leaf(schema, ov, was, FieldCode(ty, col, lo), lo, next, e, arrays);
    }

    method VisitIsNull(x: Expr) returns (v: Option<Vec>)
      requires WellTyped(IsNull(x), schema) && Shared(x)
      modifies this
      ensures Done(schema, ov, old(code), code, old(next), next, IsNull(x), v)
      decreases IsNull(x), 0
    {
      hide ComputesFrom, ColumnSem, FaultSem, IsNullCode;
      ghost var was, lo := code, next;
      var val := VisitExpr(x);
      if val.None? {
        return None;
      }
      ghost var mid, at := code, next;
      var tail := IsNullCode(val.value, next);
      var arrays := Vec(val.value.isNull, next, next);
      code := code + tail;
      next := next + 1;
      v := Some(arrays);
      ghost var g, k := Goal(x, val.value, lo, at), Goal(IsNull(x), arrays, lo, next);
      GColumn(schema, ov, x, val.value, lo, at);
      GColumn(schema, ov, IsNull(x), arrays, lo, next);
      SemOfIsNull(schema, ov, x);
      IsNullComputes(schema, g, k, at);
      forall c | CallOk(c, schema) ensures FaultSem(schema, ov, IsNull(x))(c) == FaultSem(schema, ov, x)(c) {
        FaultsOne(schema, ov, IsNull(x), x, c);
      }
      Combined(schema, ov, was, mid, tail, lo, at, next, [g], k, FaultSem(schema, ov, x), Never(), IsNull(x), arrays);
    }

    /** The kernels of a binary node, by operator and operand type. */
    method EmitBinary(op: BinaryOp, l: Expr, r: Expr, lv: Vec, rv: Vec, ghost was: seq<Instr>, ghost lo: nat,
                      ghost mid: nat) returns (v: Option<Vec>)
      requires WellTyped(Binary(op, l, r), schema) && Shared(Binary(op, l, r)) && BatchCompilable(l) &&
        BatchCompilable(r) && was <= code && mid <= next && lo <= mid
      requires Computes(schema, code[|was|..], lo, next, [Goal(l, lv, lo, mid), Goal(r, rv, mid, next)],
        Either(FaultSem(schema, ov, l), FaultSem(schema, ov, r)))
      modifies this
      ensures Done(schema, ov, was, code, lo, next, Binary(op, l, r), v)
    {
      hide ComputesFrom, ColumnSem, FaultSem, LogicCode, CompareCode, ArithCode;
      var t := TypeOf(l);
      ghost var c0, at := code, next;
      if op.And? || op.Or? {
        code := code + LogicCode(op, lv, rv);
        v := Some(lv);
        LogicDone(schema, ov, was, c0, lo, mid, at, op, l, r, lv, rv);
      } else if op.Compare? && (NumberType(t) || t == Varchar) {
        code := code + CompareCode(op.cmp, t, lv, rv, next);
        v := Some(Vec(next, lv.isNull, next));
        next := next + 1;
        CompareDone(schema, ov, was, c0, lo, mid, at, op.cmp, l, r, lv, rv);
      } else if op.Arith? && NumberType(t) && (op.arith == ADD || op.arith == SUB || op.arith == MUL) {
        code := code + ArithCode(op.arith, t, lv, rv);
        v := Some(lv);
        ArithDone(schema, ov, was, c0, lo, mid, at, op.arith, l, r, lv, rv);
      } else if op.Arith? && NumberType(t) && (op.arith == DIV || op.arith == MOD) {
        code := code + ArithCode(op.arith, t, lv, rv);
        v := Some(lv);
        DivideDone(schema, ov, was, c0, lo, mid, at, op.arith, l, r, lv, rv);
      } else {
        v := None;
      }
    }

    method VisitBinary(op: BinaryOp, l: Expr, r: Expr) returns (v: Option<Vec>)
      requires WellTyped(Binary(op, l, r), schema) && Shared(Binary(op, l, r))
      modifies this
      ensures Done(schema, ov, old(code), code, old(next), next, Binary(op, l, r), v)
      decreases Binary(op, l, r), 0
    {
      hide ComputesFrom, ColumnSem, FaultSem, BinaryCompiles;
      ghost var was, lo := code, next;
      var lv := VisitExpr(l);
      if lv.None? {
        return None;
      }
      ghost var a, mid := code, next;
      var rv := VisitExpr(r);
      if rv.None? {
        return None;
      }
      TwoValues(schema, was, a, code, lo, mid, next, Goal(l, lv.value, lo, mid), Goal(r, rv.value, mid, next),
        FaultSem(schema, ov, l), FaultSem(schema, ov, r));
      v := EmitBinary(op, l, r, lv.value, rv.value, was, lo, mid);
    }

    method VisitCoalesce(x: Expr, y: Expr) returns (v: Option<Vec>)
      requires WellTyped(Coalesce(x, y), schema) && Shared(x) && Shared(y) && TypeOf(x) != Date32
      modifies this
      ensures Done(schema, ov, old(code), code, old(next), next, Coalesce(x, y), v)
      decreases Coalesce(x, y), 0
    {
      hide ComputesFrom, ColumnSem, FaultSem;
      ghost var was, lo, e := code, next, Coalesce(x, y);
      var value1 := VisitExpr(x);
      if value1.None? {
        return None;
      }
      ghost var a, mid := code, next;
      var value2 := VisitExpr(y);
      if value2.None? || !ArrayType(TypeOf(x)) {
        return None;
      }
      v := value1;
      ghost var c0, at, g, h := code, next, Goal(x, value1.value, lo, mid), Goal(y, value2.value, mid, next);
      TwoValues(schema, was, a, c0, lo, mid, at, g, h, FaultSem(schema, ov, x), FaultSem(schema, ov, y));
      code := code + [CoalesceI(TypeOf(x), value1.value, value2.value)];
      CoalesceDone(schema, ov, was, c0, lo, mid, at, x, y, value1.value, value2.value);
    }

    /** Three operands in order; nothing if any fails. */
    method VisitThree(x: Expr, y: Expr, z: Expr, ghost e: Expr)
                      returns (vs: Option<(Vec, Vec, Vec)>, ghost mid: nat, ghost mid2: nat)
      requires WellTyped(e, schema) && (e == If(x, y, z) || e == Between(x, y, z)) && Shared(x) && Shared(y) &&
        Shared(z)
      modifies this
      ensures vs.Some? <==> BatchCompilable(x) && BatchCompilable(y) && BatchCompilable(z)
      ensures old(code) <= code && (vs.Some? ==> old(next) <= mid <= mid2 <= next)
      ensures vs.Some? ==> Computes(schema, code[|old(code)|..], old(next), next,
        [Goal(x, vs.value.0, old(next), mid), Goal(y, vs.value.1, mid, mid2), Goal(z, vs.value.2, mid2, next)],
        ThreeFault(schema, ov, x, y, z))
      decreases e, 0
    {
      hide ComputesFrom, ColumnSem, FaultSem;
      ghost var was, lo := code, next;
      mid, mid2 := 0, 0;
      var xv := VisitExpr(x);
      if xv.None? {
        return None, mid, mid2;
      }
      ghost var a := code;
      mid := next;
      var yv := VisitExpr(y);
      if yv.None? {
        return None, mid, mid2;
      }
      ghost var b := code;
      mid2 := next;
      var zv := VisitExpr(z);
      if zv.None? {
        return None, mid, mid2;
      }
      vs := Some((xv.value, yv.value, zv.value));
      ThreeValues(schema, was, a, b, code, lo, mid, mid2, next, Goal(x, xv.value, lo, mid),
        Goal(y, yv.value, mid, mid2), Goal(z, zv.value, mid2, next),
        FaultSem(schema, ov, x), FaultSem(schema, ov, y), FaultSem(schema, ov, z));
    }

    method VisitIf(x: Expr, y: Expr, z: Expr) returns (v: Option<Vec>)
      requires WellTyped(If(x, y, z), schema) && Shared(x) && Shared(y) && Shared(z)
      modifies this
      ensures Done(schema, ov, old(code), code, old(next), next, If(x, y, z), v)
      decreases If(x, y, z), 1
    {
      hide ComputesFrom, ColumnSem, FaultSem;
      ghost var was, lo, e := code, next, If(x, y, z);
      var vs, mid, mid2 := VisitThree(x, y, z, e);
      if vs.None? || !ArrayType(TypeOf(y)) {
        return None;
      }
      var (cond, evTrue, evFalse) := vs.value;
      v := Some(evTrue);
      ghost var c0, at := code, next;
      code := code + [IfI(TypeOf(y), cond, evTrue, evFalse)];
      IfDone(schema, ov, was, c0, lo, mid, mid2, at, x, y, z, cond, evTrue, evFalse);
    }

    method VisitBetween(x: Expr, y: Expr, z: Expr) returns (v: Option<Vec>)
      requires WellTyped(Between(x, y, z), schema) && Shared(x) && Shared(y) && Shared(z)
      modifies this
      ensures Done(schema, ov, old(code), code, old(next), next, Between(x, y, z), v)
      decreases Between(x, y, z), 1
    {
      hide ComputesFrom, ColumnSem, FaultSem, BetweenCmps, BetweenJoins, BatchCompilable, Shared, ThreeFault;
      ghost var was, lo, e := code, next, Between(x, y, z);
      CompilesBetween(x, y, z);
      var vs, mid, mid2 := VisitThree(x, y, z, e);
      var t := TypeOf(x);
      if vs.None? || !(NumberType(t) || t == Varchar) {
        return None;
      }
      var (val, lowerVal, upperVal) := vs.value;
      ghost var c0, at := code, next;
      var arrays := Vec(next, lowerVal.isNull, next);
      var tail := BetweenCmps(t, val, lowerVal, upperVal, next) + BetweenJoins(val, lowerVal, upperVal, next);
      code := code + tail;
      next := next + 2;
      v := Some(arrays);
      BetweenDone(schema, ov, was, c0, lo, mid, mid2, at, x, y, z, val, lowerVal, upperVal, arrays);
    }

    method VisitIn(es: seq<Expr>) returns (v: Option<Vec>)
      requires WellTyped(In(es), schema) && forall i | 0 <= i < |es| :: Shared(es[i])
      modifies this
      ensures Done(schema, ov, old(code), code, old(next), next, In(es), v)
      decreases In(es), 0
    {
      hide ComputesFrom, ColumnSem, FaultSem, AnyFault, Mean, BatchCompilable, Shared;
      ghost var was, lo, e := code, next, In(es);
      var vs: seq<Vec> := [];
      ghost var gs: seq<BatchSteps.Goal> := [];
      NoValues(schema, ov, was, lo);
      assert es[..0] == [];
      CompilesIn(es);
      for i := 0 to |es|
        invariant was <= code && lo <= next && Mean(schema, ov, gs, es[..i])
        invariant forall j | 0 <= j < i :: BatchCompilable(es[j])
        invariant Computes(schema, code[|was|..], lo, next, gs, AnyFault(schema, ov, es[..i]))
        invariant |vs| == |gs| == i && forall j | 0 <= j < i :: gs[j].Goal? && gs[j].v == vs[j]
      {
        ghost var mid, at := code, next;
        var cmp := VisitExpr(es[i]);
        if cmp.None? {
          return None;
        }
        NoMean(schema, ov);
        NextValue(schema, ov, was, mid, code, lo, at, next, gs, es[..i], es[i], cmp.value);
        MeanMore(schema, ov, gs, es[..i], es[i], cmp.value, at, next);
        assert es[..i] + [es[i]] == es[..i + 1];
        gs := gs + [Goal(es[i], cmp.value, at, next)];
        vs := vs + [cmp.value];
      }
      assert es[..|es|] == es;
      var t := TypeOf(es[0]);
      if !ArrayType(t) {
        return None;
      }
      ghost var c0, at := code, next;
      var arrays := Vec(next, next + 1, next + 2);
      var tail := [InI(t, vs[0], vs[1..], arrays)];
      next := next + 3;
      code := code + tail;
      v := Some(arrays);
      InDone(schema, ov, was, c0, lo, at, es, gs, vs, arrays);
    }

    method VisitSwitch(ws: seq<(Expr, Expr)>, els: Expr) returns (v: Option<Vec>)
      requires WellTyped(Switch(ws, els), schema) && Shared(els) && forall i | 0 <= i < |ws| ::
        Shared(ws[i].0) && Shared(ws[i].1)
      modifies this
      ensures Done(schema, ov, old(code), code, old(next), next, Switch(ws, els), v)
      decreases Switch(ws, els), 0
    {
      hide ComputesFrom, ColumnSem, FaultSem, BatchCompilable, Shared, BranchesVisited, WellTyped;
      SwitchTyped(schema, ws, els);
      ghost var was, lo := code, next;
      var conditions: seq<Vec> := [];
      var results: seq<Vec> := [];
      ghost var x := Cases([], [], []);
      NoBranchesVisited(schema, ov, was, lo, ws);
      CompilesSwitch(ws, els);
      for i := 0 to |ws|
        invariant was <= code && BranchesVisited(schema, ov, was, code, lo, next, ws, i, x, conditions, results)
        invariant forall j | 0 <= j < i :: BatchCompilable(ws[j].0) && BatchCompilable(ws[j].1)
      {
        ghost var mid, at := code, next;
        var condition := VisitExpr(ws[i].0);
        if condition.None? {
          return None;
        }
        ghost var mid2, at2 := code, next;
        var result := VisitExpr(ws[i].1);
        if result.None? {
          return None;
        }
        x := BranchVisited(schema, ov, was, mid, mid2, code, lo, at, at2, next, ws, i, x, conditions, results,
          condition.value, result.value);
        conditions := conditions + [condition.value];
        results := results + [result.value];
      }
      ghost var mid, last := code, next;
      var evFalse := VisitExpr(els);
      if evFalse.None? || !ArrayType(TypeOf(els)) {
        return None;
      }
      ghost var c0, at := code, next;
      var arrays := Vec(next, next + 1, next + 2);
      next := next + 3;
      code := code + [SwitchI(TypeOf(els), conditions, results, evFalse.value, arrays)];
      v := Some(arrays);
      SwitchDone(schema, ov, was, mid, c0, lo, last, at, ws, els, x, conditions, results, evFalse.value, arrays);
    }

    /** The arguments in order, each one's null flags joined where the function does not see them itself. */
    method VisitArgs(sig: FnSig, args: seq<Expr>, variant: bool, anyNull: nat)
                     returns (vs: Option<seq<Vec>>, ghost gs: seq<BatchSteps.Goal>)
      requires WellTyped(Func(sig, args), schema) && (forall i | 0 <= i < |args| :: Shared(args[i])) && anyNull == next
      modifies this
      ensures old(code) <= code && (vs.Some? <==> forall i | 0 <= i < |args| :: BatchCompilable(args[i]))
      ensures vs.Some? ==> ArgsVisited(schema, ov, sig, args, variant, old(code), code, old(next), next, gs, vs.value)
      decreases Func(sig, args), 0
    {
      hide ComputesFrom, ColumnSem, FaultSem, AnyFault, Mean, BatchCompilable, Shared, Setup, JoinedNulls, SetupCode,
        ArgsVisited;
      ghost var was, lo := code, next;
      code := code + SetupCode(next, variant);
      next := SetupEnd(next, variant);
      var joins := Joins(sig, variant);
      var values: seq<Vec> := [];
      gs := [];
      SetupDone(schema, ov, sig, args, variant, was, lo);
      for i := 0 to |args|
        invariant was <= code && forall j | 0 <= j < i :: BatchCompilable(args[j])
        invariant ArgsVisited(schema, ov, sig, args[..i], variant, was, code, lo, next, gs, values)
      {
        ghost var mid, at := code, next;
        var arg := VisitExpr(args[i]);
        if arg.None? {
          return None, gs;
        }
        ghost var c0 := code;
        if joins {
          code := code + [OrI(anyNull, arg.value.isNull)];
        }
        ArgDone(schema, ov, sig, args, i, variant, was, mid, c0, lo, at, next, gs, values, arg.value);
        gs := gs + [Goal(args[i], arg.value, at, next)];
        values := values + [arg.value];
      }
      assert args[..|args|] == args;
      vs := Some(values);
    }

    method VisitFunc(sig: FnSig, args: seq<Expr>) returns (v: Option<Vec>)
      requires WellTyped(Func(sig, args), schema) && forall i | 0 <= i < |args| :: Shared(args[i])
      modifies this
      ensures Done(schema, ov, old(code), code, old(next), next, Func(sig, args), v)
      decreases Func(sig, args), 1
    {
      hide ComputesFrom, ColumnSem, FaultSem, AnyFault, BatchCompilable, Shared, CallCode, ArgsVisited;
      ghost var was, lo := code, next;
      var variant, anyNull := ov && sig.hasNullVariant, next;
      CompilesFunc(sig, args);
      var vs, gs := VisitArgs(sig, args, variant, anyNull);
      if vs.None? {
        return None;
      }
      ghost var c0, at := code, next;
      var arrays := Vec(next, NullName(sig, anyNull, next), next + 1);
      code := code + CallCode(sig, variant, vs.value, anyNull, next);
      next := next + 3;
      v := Some(arrays);
      FuncDone(schema, ov, sig, args, variant, was, c0, lo, at, gs, vs.value, arrays);
    }

    method VisitExpr(e: Expr) returns (v: Option<Vec>)
      requires WellTyped(e, schema) && Shared(e)
      modifies this
      ensures Done(schema, ov, old(code), code, old(next), next, e, v)
      decreases e, 2
    {
      hide ComputesFrom, BatchCompilable, ColumnSem, FaultSem;
      match e
      case Literal(ty, isNull, data) => v := VisitLiteral(ty, isNull, data);
      case Field(ty, col) => v := VisitField(ty, col);
      case Not(x) => v := VisitNot(x);
      case IsNull(x) => v := VisitIsNull(x);
      case Binary(op, l, r) => v := VisitBinary(op, l, r);
      case Between(x, lower, upper) => v := VisitBetween(x, lower, upper);
      case If(c, t, f) => v := VisitIf(c, t, f);
      case Coalesce(a, b) => v := VisitCoalesce(a, b);
      case In(es) => v := VisitIn(es);
      case Switch(ws, els) => v := VisitSwitch(ws, els);
      case Func(sig, args) => v := VisitFunc(sig, args);
    }

    /** The batch function of a tree: its code and the arrays its result ends up in. */
    method CreateBatchFunction(e: Expr) returns (f: Option<BatchFunction>)
      requires WellTyped(e, schema) && Shared(e) && code == [] && next == 0
      modifies this
      ensures f.Some? <==> BatchCompilable(e)
      ensures f.Some? ==> BatchImplements(schema, ov, f.value, e)
    {
      hide BatchCompilable, Computes, BatchImplements;
      var result := VisitExpr(e);
      if result.None? {
        return None;
      }
      f := Some(BatchFunction(code, result.value));
      assert code[0..] == code;
      FunctionImplements(schema, ov, f.value, e, next);
    }
  }

  // ---------- the finished function ----------

  datatype BatchFunction = BatchFunction(code: seq<Instr>, result: Vec)

  const EMPTY := Mem(map[], map[])

  /** Called on any batch and any rows of it, the function reports an error exactly if some row does, and otherwise its
      result arrays show, cell by cell, the value of the tree on the cell's row. */
  ghost predicate BatchImplements(schema: seq<Type>, ov: bool, f: BatchFunction, e: Expr)
    requires WellTyped(e, schema)
  {
    forall x | CallOk(x, schema) :: BatchReturns(x, schema, ov, f, e)
  }

  ghost predicate BatchReturns(x: Call, schema: seq<Type>, ov: bool, f: BatchFunction, e: Expr)
    requires WellTyped(e, schema)
  {
    match Run(x, f.code, EMPTY)
    case Stuck => false
    case Failed => FaultSem(schema, ov, e)(x)
    case Ran(m) => !FaultSem(schema, ov, e)(x) && Denotes(m, TypeOf(e), f.result, |x.rows|, ColumnSem(schema, ov, e)(x))
  }

  lemma FunctionImplements(schema: seq<Type>, ov: bool, f: BatchFunction, e: Expr, hi: nat)
    requires WellTyped(e, schema) && Computes(schema, f.code, 0, hi, [G(schema, ov, e, f.result, 0, hi)],
      FaultSem(schema, ov, e))
    ensures BatchImplements(schema, ov, f, e)
  {
    hide Run, Kept, FaultSem, ColumnSem, Denotes;
    var g := G(schema, ov, e, f.result, 0, hi);
    forall x | CallOk(x, schema) ensures BatchReturns(x, schema, ov, f, e) {
      assert Starts(x, schema, EMPTY, 0, []);
      assert Delivers(x, EMPTY, Run(x, f.code, EMPTY), 0, hi, [g], FaultSem(schema, ov, e)(x));
      if Run(x, f.code, EMPTY).Ran? {
        assert Holds(x, Run(x, f.code, EMPTY).mem, [g][0]);
      }
    }
  }
}
