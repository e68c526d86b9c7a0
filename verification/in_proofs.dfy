/** IN: a chain of blocks, one per list element, that compare and leave on the first match, while a stack flag
    collects whether an element was null; the true, false and merge blocks follow. */
module InProofs {
  import opened SqlValues
  import opened Expressions
  import opened BlockIR
  import opened CodeShape
  import opened Translation
  import opened Steps
  import opened StringEqualProofs
  import opened FuncProofs

  function Range(lo: nat, hi: nat): (r: set<nat>)
    ensures forall k: nat :: k in r <==> lo <= k < hi
    decreases hi - lo
  {
    if lo >= hi then {} else {lo} + Range(lo + 1, hi)
  }

  /** The pending blocks: true, false and merge, and the condition blocks not yet reached. */
  function Pending(t: nat, lo: nat, hi: nat): set<nat> {
    {t, t + 1, t + 2} + Range(lo, hi)
  }

  lemma PendingNext(t: nat, lo: nat, hi: nat)
    requires t + 2 < lo < hi
    ensures lo in Pending(t, lo, hi) && Pending(t, lo, hi) - {lo} == Pending(t, lo + 1, hi)
  {
  }

  /** The outcome of one comparison, null when a side is. */
  ghost function Compared(g: Goal, h: Goal): Context -> Sql {
    ctx => if g.sem(ctx).Null? || h.sem(ctx).Null? then Null else Value(VBool(g.sem(ctx) == h.sem(ctx)))
  }

  /** The snapshots for one list element: start of its block, element computed, comparison computed, null flag
      updated, decision computed. */
  datatype Element = Element(st: Fn, v: Fn, w: Fn, x1: Fn, x2: Fn, x3: Fn, x4: Fn, e: Fn, g: Goal, q: Goal) {
    function Decision(): Operand {
      Reg(x4.regs)
    }

    ghost predicate TailCode(has: nat) {
      && IsAdd(w, LoadI(w.regs, has), x1)
      && IsAdd(x1, OrI(x1.regs, g.v.isNull, Reg(w.regs)), x2)
      && IsStore(x2, has, Reg(x1.regs), x3)
      && IsAdd(x3, NotI(x3.regs, q.v.isNull), x4)
      && IsAdd(x4, AndI(x4.regs, Reg(x3.regs), q.v.data), e)
    }

    ghost predicate Built(schema: seq<Type>, g0: Goal, has: nat) {
      && Bounded(g0.v, st.regs) && has < st.slots
      && Computes(schema, st, v, [g])
      && ComputesFrom(schema, v, w, [g0, g], [q]) && q.t == Boolean && q.sem == Compared(g0, g)
      && TailCode(has)
    }

    /** The finished code `z` has this element's block, ending in a branch to `thn` or `els`. */
    ghost predicate In(thn: nat, els: nat, z: seq<Block>) {
      e.cur < |e.blocks| && Sub(e.Close(CondBr(Decision(), thn, els)).blocks, z)
    }
  }

  lemma InMore(el: Element, thn: nat, els: nat, y: seq<Block>, z: seq<Block>)
    requires el.In(thn, els, y) && Sub(y, z)
    ensures el.In(thn, els, z)
  {
    SubTrans(el.e.Close(CondBr(el.Decision(), thn, els)).blocks, y, z);
  }

  lemma TailGrows(a: Fn, el: Element, has: nat, pend: set<nat>)
    requires Grows(a, el.w, pend) && el.TailCode(has)
    ensures Grows(a, el.e, pend) && Sub(el.w.blocks, el.e.blocks)
  {
    hide Sub, Fn.Open;
    GrowsStep(a, el.w, LoadI(el.w.regs, has), el.x1, pend);
    GrowsStep(a, el.x1, OrI(el.x1.regs, el.g.v.isNull, Reg(el.w.regs)), el.x2, pend);
    GrowsIns(a, el.x2, pend, [StoreI(has, Reg(el.x1.regs))], 0);
    GrowsStep(a, el.x3, NotI(el.x3.regs, el.q.v.isNull), el.x4, pend);
    GrowsStep(a, el.x4, AndI(el.x4.regs, Reg(el.x3.regs), el.q.v.data), el.e, pend);
    SubTrans(el.w.blocks, el.x1.blocks, el.x2.blocks);
    SubTrans(el.w.blocks, el.x2.blocks, el.x3.blocks);
    SubTrans(el.w.blocks, el.x3.blocks, el.x4.blocks);
    SubTrans(el.w.blocks, el.x4.blocks, el.e.blocks);
  }

  lemma GrowsStep(a: Fn, c: Fn, i: Instr, d: Fn, pend: set<nat>)
    requires Grows(a, c, pend) && !i.PhiI? && IsAdd(c, i, d)
    ensures Grows(a, d, pend) && Sub(c.blocks, d.blocks)
  {
    GrowsIns(a, c, pend, [i], 1);
  }

  /** A bool in a slot. */
  ghost predicate Slot(t: State, x: nat, b: bool) {
    x in t.slots && t.slots[x] == VBool(b)
  }

  /** `u` is `t` somewhere else, with slot `x` possibly changed; earlier registers and other slots read the same. */
  ghost predicate ButSlot(n: nat, x: nat, t: State, u: State) {
    && (forall o: Operand | Below(o, n) :: Ev(u, o) == Ev(t, o))
    && (forall y: nat | y != x && y in t.slots :: y in u.slots && u.slots[y] == t.slots[y])
  }

  /** A base whose frame leaves the slots from `low` on free. */
  ghost function FreeSlots(w: Fn, low: nat): Fn {
    w.(slots := low)
  }

  lemma ReadyFree(ctx: Context, w: Fn, low: nat, t: State)
    requires w.Open() && w.AtEnd(t) && low <= w.slots
    ensures At(ctx, FreeSlots(w, low), w, t, t) && w.cur < |w.blocks|
  {
    Ready(ctx, w, t);
  }

  lemma TailRuns(ctx: Context, el: Element, low: nat, has: nat, t: State, h: bool, n: bool, y: bool, m: bool)
                 returns (u: State)
    requires el.w.Open() && el.w.AtEnd(t) && el.TailCode(has) && low <= has < el.w.slots && Slot(t, has, h)
    requires Bounded(el.q.v, el.w.regs) && Below(el.g.v.isNull, el.w.regs)
    requires Ev(t, el.g.v.isNull) == Some(VBool(n)) && Ev(t, el.q.v.isNull) == Some(VBool(m)) &&
      Ev(t, el.q.v.data) == Some(VBool(y))
    ensures At(ctx, FreeSlots(el.w, low), el.e, t, u) && ButSlot(el.w.regs, has, t, u) && Slot(u, has, n || h)
    ensures Ev(u, el.Decision()) == Some(VBool(!m && y))
  {
    hide At, Fn.Open, Fn.Add, Fn.Ins;
    var a := FreeSlots(el.w, low);
    ReadyFree(ctx, el.w, low, t);
    u := DoLoad(ctx, a, el.w, el.x1, t, t, has, VBool(h));
    u := DoOr(ctx, a, el.x1, el.x2, t, u, el.g.v.isNull, Reg(el.w.regs), n, h);
    u := DoStore(ctx, a, el.x2, el.x3, t, u, has, Reg(el.x1.regs), VBool(n || h));
    u := DoNot(ctx, a, el.x3, el.x4, t, u, el.q.v.isNull, m);
    u := DoAnd(ctx, a, el.x4, el.e, t, u, Reg(el.x3.regs), el.q.v.data, !m, y);
  }

  // ---------- running one element ----------

  /** What holds whenever a condition block is entered. */
  ghost predicate Cruising(ctx: Context, a: Fn, z: seq<Block>, s: State, t: State, g0: Goal, h: bool) {
    && Path(ctx, a, z, s, t) && Met(ctx, g0, t)
    && Slot(t, a.slots, false) && Slot(t, a.slots + 1, g0.sem(ctx).Null?) && Slot(t, a.slots + 2, h)
  }

  lemma ElementRuns(ctx: Context, schema: seq<Type>, a: Fn, el: Element, g0: Goal, thn: nat, els: nat, z: seq<Block>,
                    s: State, t: State, h: bool)
    returns (u: State)
    requires ContextOk(ctx, schema) && Cruising(ctx, a, z, s, t, g0, h) && el.st.AtEnd(t)
    requires el.Built(schema, g0, a.slots + 2) && el.In(thn, els, z) && a.regs <= el.st.regs &&
      a.slots + 2 < el.st.slots
    ensures Cruising(ctx, a, z, s, u, g0, el.g.sem(ctx).Null? || h)
    ensures u.idx == 0 && u.block == if StrictlyEqual(g0.sem(ctx), el.g.sem(ctx)) then thn else els
  {
    hide Grown, Sub, Fn.Open, Fn.Close, Fn.AtEnd, Element.Built, Element.In, Delivers, Met, ContextOk, At, ButSlot,
      Slot;
    ElementSubs(schema, el, g0, a.slots + 2, thn, els, z);
    var v, t1 := VisitElement(ctx, schema, a, el, g0, z, s, t, h);
    var m, y := ReadCompared(ctx, el.q, g0, el.g, t1);
    var n := NullPart(ctx, el.g, t1);
    var t2 := TailRuns(ctx, el, a.slots, a.slots + 2, t1, h, n, y, m);
    AfterTail(ctx, a, el, g0, thn, els, z, s, t1, t2, n || h);
    u := Enter(t2, if !m && y then thn else els);
  }

  predicate StrictlyEqual(x: Sql, y: Sql) {
    x.Value? && x == y
  }

  lemma ElementSubs(schema: seq<Type>, el: Element, g0: Goal, has: nat, thn: nat, els: nat, z: seq<Block>)
    requires el.Built(schema, g0, has) && el.In(thn, els, z)
    ensures Sub(el.v.blocks, z) && Sub(el.w.blocks, z) && Sub(el.e.blocks, z) && el.e.cur < |el.e.blocks| && el.w.Open()
    ensures Bounded(el.q.v, el.w.regs) && Below(el.g.v.isNull, el.w.regs) && el.st.regs <= el.w.regs &&
      el.st.slots <= el.w.slots
    ensures el.st.regs <= el.v.regs <= el.w.regs && el.st.slots <= el.v.slots <= el.w.slots &&
      Bounded(el.g.v, el.v.regs)
    ensures Sub(el.e.Close(CondBr(el.Decision(), thn, els)).blocks, z) && el.TailCode(has) && Bounded(g0.v, el.w.regs)
    ensures el.q.t == Boolean && el.q.sem == Compared(g0, el.g) && has < el.w.slots
  {
    TailGrows(el.w, el, has, {});
    var closed := el.e.Close(CondBr(el.Decision(), thn, els)).blocks;
    assert Sub(el.e.blocks, closed);
    SubTrans(el.e.blocks, closed, z);
    SubTrans(el.w.blocks, el.e.blocks, z);
    GrowsSub(el.v, el.w, {});
    SubTrans(el.v.blocks, el.w.blocks, z);
    assert Bounded([el.q][0].v, el.w.regs) && Bounded([el.g][0].v, el.v.regs);
  }

  /** Compute the element and compare it. */
  lemma VisitElement(ctx: Context, schema: seq<Type>, a: Fn, el: Element, g0: Goal, z: seq<Block>, s: State, t: State,
                     h: bool)
    returns (v: State, u: State)
    requires ContextOk(ctx, schema) && Cruising(ctx, a, z, s, t, g0, h) && el.st.AtEnd(t) &&
      el.Built(schema, g0, a.slots + 2)
    requires Sub(el.v.blocks, z) && Sub(el.w.blocks, z) && a.regs <= el.st.regs && a.slots + 2 < el.st.slots &&
      Bounded(el.g.v, el.v.regs)
    requires el.st.regs <= el.v.regs && el.st.slots <= el.v.slots
    ensures Cruising(ctx, a, z, s, u, g0, h) && el.w.AtEnd(u) && Met(ctx, el.g, u) && Met(ctx, el.q, u)
  {
    hide Sub, Grown, Path, Met;
    v := PathVisit(ctx, schema, a, el.st, el.v, [], [el.g], z, s, t);
    OneOf(ctx, el.g, v);
    KeepsMet(ctx, el.st, g0, t, v);
    assert MetAll(ctx, [g0, el.g], v);
    u := PathVisit(ctx, schema, a, el.v, el.w, [g0, el.g], [el.q], z, s, v);
    OneOf(ctx, el.q, u);
    KeepsMet(ctx, el.v, g0, v, u);
    KeepsMet(ctx, el.v, el.g, v, u);
  }

  lemma OneOf(ctx: Context, g: Goal, s: State)
    requires MetAll(ctx, [g], s)
    ensures Met(ctx, g, s)
  {
    assert [g][0] == g;
  }

  lemma KeepsMet(ctx: Context, b: Fn, g: Goal, s: State, t: State)
    requires Met(ctx, g, s) && Bounded(g.v, b.regs) && Frame(b, s, t)
    ensures Met(ctx, g, t)
  {
    HoldsFrame(b, g.t, g.v, g.sem(ctx), s, t);
  }

  lemma ReadCompared(ctx: Context, q: Goal, g: Goal, h: Goal, t: State) returns (m: bool, y: bool)
    requires Met(ctx, q, t) && q.t == Boolean && q.sem == Compared(g, h)
    ensures Ev(t, q.v.isNull) == Some(VBool(m)) && Ev(t, q.v.data) == Some(VBool(y))
    ensures (!m && y) == StrictlyEqual(g.sem(ctx), h.sem(ctx))
  {
    y, m := BoolParts(ctx, q, t);
  }

  lemma AfterTail(ctx: Context, a: Fn, el: Element, g0: Goal, thn: nat, els: nat, z: seq<Block>, s: State, t: State,
                  u: State, h: bool)
    requires Path(ctx, a, z, s, t) && Met(ctx, g0, t) && Slot(t, a.slots, false) &&
      Slot(t, a.slots + 1, g0.sem(ctx).Null?)
    requires At(ctx, FreeSlots(el.w, a.slots), el.e, t, u) && ButSlot(el.w.regs, a.slots + 2, t, u) &&
      Slot(u, a.slots + 2, h)
    requires Bounded(g0.v, el.w.regs) && a.regs <= el.w.regs && el.e.cur < |el.e.blocks| && Sub(el.e.blocks, z)
    requires Sub(el.e.Close(CondBr(el.Decision(), thn, els)).blocks, z) && BoolOf(u, el.Decision()).Some?
    ensures Cruising(ctx, a, z, s, Enter(u, if BoolOf(u, el.Decision()).value then thn else els), g0, h)
  {
    var w := FreeSlots(el.w, a.slots);
    assert Arrives(ctx, w, el.e, t, u) && w.regs == el.w.regs && w.slots == a.slots;
    PathArrives(ctx, a, w, el.e, z, s, t, u);
    var target := if BoolOf(u, el.Decision()).value then thn else els;
    PathJump(ctx, a, el.e, CondBr(el.Decision(), thn, els), target, z, s, u);
    MetHere(ctx, g0, el.w.regs, t, Enter(u, target));
  }

  lemma MetHere(ctx: Context, g: Goal, n: nat, t: State, u: State)
    requires Met(ctx, g, t) && Bounded(g.v, n) && forall o: Operand | Below(o, n) :: Ev(u, o) == Ev(t, o)
    ensures Met(ctx, g, u)
  {
  }

  // ---------- the whole chain ----------

  /** The snapshots of an IN: entry, elements, the three closing blocks. */
  datatype InCode = InCode(a: Fn, p: Fn, v0: Fn, v1: Fn, els: seq<Element>, tr: Fn, tr1: Fn,
      fa: Fn, fa1: Fn, fa2: Fn, fa3: Fn, fa4: Fn, m: Fn, m1: Fn, done: Fn, g0: Goal) {
    const T := |a.blocks|
    const F := |a.blocks| + 1
    const M := |a.blocks| + 2

    /** Where the i-th comparison starts; after the last one comes the false block. */
    function Cond(i: nat): nat {
      CondAt(a, |els|, i)
    }

    ghost predicate EntryCode() {
      && a.regs <= p.regs && a.slots + 2 < p.slots
      && IsStore(v0, a.slots + 1, g0.v.isNull, v1) && Sub(v1.Close(Br(Cond(0))).blocks, done.blocks)
    }

    ghost predicate ElementsOk(schema: seq<Type>) {
      ChainTo(schema, a, g0, els, |els|, done.blocks)
    }

    ghost predicate EndCode() {
      && tr.cur == T && Fresh(tr) && IsStore(tr, a.slots, Const(VBool(true)), tr1) &&
        Sub(tr1.Close(Br(M)).blocks, done.blocks)
      && fa.cur == F && Fresh(fa)
      && IsAdd(fa, LoadI(fa.regs, a.slots + 2), fa1)
      && IsAdd(fa1, LoadI(fa1.regs, a.slots + 1), fa2)
      && IsAdd(fa2, OrI(fa2.regs, Reg(fa.regs), Reg(fa1.regs)), fa3)
      && IsStore(fa3, a.slots + 1, Reg(fa2.regs), fa4) && Sub(fa4.Close(Br(M)).blocks, done.blocks)
      && m.cur == M && Fresh(m)
      && IsAdd(m, LoadI(m.regs, a.slots), m1)
      && IsAdd(m1, LoadI(m1.regs, a.slots + 1), done)
      && LaterThan(a, tr) && LaterThan(a, fa) && LaterThan(a, m)
    }
  }

  function CondAt(a: Fn, n: nat, i: nat): nat {
    if i < n then |a.blocks| + 3 + i else |a.blocks| + 1
  }

  /** The first elements of an IN with `n` of them are in place in `z`. */
  ghost predicate ChainTo(schema: seq<Type>, a: Fn, g0: Goal, els: seq<Element>, n: nat, z: seq<Block>) {
    forall i | 0 <= i < |els| :: ElementAt(schema, a, g0, els[i], CondAt(a, n, i), CondAt(a, n, i + 1), z)
  }

  ghost predicate ElementAt(schema: seq<Type>, a: Fn, g0: Goal, el: Element, block: nat, next: nat, z: seq<Block>) {
    && el.Built(schema, g0, a.slots + 2) && el.In(|a.blocks|, next, z)
    && el.st.cur == block && Fresh(el.st) && LaterThan(a, el.st)
  }

  lemma ChainMore(schema: seq<Type>, a: Fn, g0: Goal, els: seq<Element>, n: nat, y: seq<Block>, z: seq<Block>)
    requires ChainTo(schema, a, g0, els, n, y) && Sub(y, z)
    ensures ChainTo(schema, a, g0, els, n, z)
  {
    hide Sub, Element.In, Element.Built, Fresh;
    forall i | 0 <= i < |els| ensures ElementAt(schema, a, g0, els[i], CondAt(a, n, i), CondAt(a, n, i + 1), z) {
      assert ElementAt(schema, a, g0, els[i], CondAt(a, n, i), CondAt(a, n, i + 1), y);
      InMore(els[i], |a.blocks|, CondAt(a, n, i + 1), y, z);
    }
  }

  ghost predicate LaterThan(a: Fn, b: Fn) {
    a.regs <= b.regs && a.slots + 2 < b.slots
  }

  /** At the start of an empty open block. */
  ghost predicate Fresh(b: Fn) {
    b.Open() && b.cur < |b.blocks| && b.blocks[b.cur].instrs == []
  }

  ghost predicate FoundFrom(gs: seq<Goal>, g0: Goal, ctx: Context, i: nat) {
    exists j | i <= j < |gs| :: StrictlyEqual(g0.sem(ctx), gs[j].sem(ctx))
  }

  ghost predicate NullFrom(gs: seq<Goal>, ctx: Context, i: nat) {
    exists j | i <= j < |gs| :: gs[j].sem(ctx).Null?
  }

  function Goals(els: seq<Element>): seq<Goal> {
    seq(|els|, i requires 0 <= i < |els| => els[i].g)
  }

  function Listed(els: seq<Element>, ctx: Context): seq<Sql> {
    seq(|els|, i requires 0 <= i < |els| => els[i].g.sem(ctx))
  }

  /** From the i-th comparison to the true or the false block. */
  lemma {:induction false} ChainRuns(ctx: Context, schema: seq<Type>, x: InCode, i: nat, s: State, t: State, h: bool)
                                     returns (u: State, h': bool)
    requires ContextOk(ctx, schema) && x.ElementsOk(schema) && i <= |x.els|
    requires Cruising(ctx, x.a, x.done.blocks, s, t, x.g0, h) && t.block == x.Cond(i) && t.idx == 0
    ensures Cruising(ctx, x.a, x.done.blocks, s, u, x.g0, h') && u.idx == 0
    ensures u.block == if FoundFrom(Goals(x.els), x.g0, ctx, i) then x.T else x.F
    ensures !FoundFrom(Goals(x.els), x.g0, ctx, i) ==> h' == (h || NullFrom(Goals(x.els), ctx, i))
    decreases |x.els| - i
  {
    hide Cruising, Element.Built, Element.In, ContextOk, Fn.Open;
    var gs := Goals(x.els);
    assert i < |x.els| ==> ElementAt(schema, x.a, x.g0, x.els[i], x.Cond(i), x.Cond(i + 1), x.done.blocks);
    if i == |x.els| {
      u, h' := t, h;
    } else {
      var el := x.els[i];
      assert gs[i] == el.g && el.st.AtEnd(t);
      u := ElementRuns(ctx, schema, x.a, el, x.g0, x.T, x.Cond(i + 1), x.done.blocks, s, t, h);
      h' := el.g.sem(ctx).Null? || h;
      if !StrictlyEqual(x.g0.sem(ctx), el.g.sem(ctx)) {
        u, h' := ChainRuns(ctx, schema, x, i + 1, s, u, h');
      }
    }
  }

  /** What the two result slots hold when the merge block is entered. */
  ghost predicate Landed(ctx: Context, x: InCode, s: State, t: State, found: bool, isNull: bool) {
    && Path(ctx, x.a, x.done.blocks, s, t) && t.block == x.M && t.idx == 0
    && Slot(t, x.a.slots, found) && Slot(t, x.a.slots + 1, isNull)
  }

  lemma SubOfClose(b: Fn, t: Term, z: seq<Block>)
    requires b.Open() && Sub(b.Close(t).blocks, z)
    ensures Sub(b.blocks, z)
  {
    SubTrans(b.blocks, b.Close(t).blocks, z);
  }

  /** The true block. */
  lemma TrueLands(ctx: Context, x: InCode, s: State, t: State, h: bool) returns (u: State)
    requires Cruising(ctx, x.a, x.done.blocks, s, t, x.g0, h) && t.block == x.T && t.idx == 0 && x.EndCode()
    ensures Landed(ctx, x, s, u, true, x.g0.sem(ctx).Null?)
  {
    var b := FreeSlots(x.tr, x.a.slots);
    ReadyFree(ctx, x.tr, x.a.slots, t);
    u := DoStore(ctx, b, x.tr, x.tr1, t, t, x.a.slots, Const(VBool(true)), VBool(true));
    Lands(ctx, x, b, x.tr1, s, t, u);
    u := Enter(u, x.M);
  }

  /** The false block: NULL if the value or an element was. */
  lemma FalseLands(ctx: Context, x: InCode, s: State, t: State, h: bool) returns (u: State)
    requires Cruising(ctx, x.a, x.done.blocks, s, t, x.g0, h) && t.block == x.F && t.idx == 0 && x.EndCode()
    ensures Landed(ctx, x, s, u, false, h || x.g0.sem(ctx).Null?)
  {
    var fa, n := x.fa, x.g0.sem(ctx).Null?;
    var b := FreeSlots(fa, x.a.slots);
    ReadyFree(ctx, fa, x.a.slots, t);
    u := FalseBody(ctx, x, b, t, h, n);
    Lands(ctx, x, b, x.fa4, s, t, u);
    u := Enter(u, x.M);
  }

  lemma FalseBody(ctx: Context, x: InCode, b: Fn, t: State, h: bool, n: bool) returns (u: State)
    requires At(ctx, b, x.fa, t, t) && x.EndCode() && b.slots == x.a.slots
    requires Slot(t, x.a.slots, false) && Slot(t, x.a.slots + 1, n) && Slot(t, x.a.slots + 2, h)
    ensures At(ctx, b, x.fa4, t, u) && Slot(u, x.a.slots, false) && Slot(u, x.a.slots + 1, h || n)
  {
    hide At, Fn.Ins, Fn.Add, Sub, Fn.Open;
    var fa := x.fa;
    u := DoLoad(ctx, b, fa, x.fa1, t, t, x.a.slots + 2, VBool(h));
    u := DoLoad(ctx, b, x.fa1, x.fa2, t, u, x.a.slots + 1, VBool(n));
    u := DoOr(ctx, b, x.fa2, x.fa3, t, u, Reg(fa.regs), Reg(x.fa1.regs), h, n);
    u := DoStore(ctx, b, x.fa3, x.fa4, t, u, x.a.slots + 1, Reg(x.fa2.regs), VBool(h || n));
  }

  /** The branch to the merge block. */
  lemma Lands(ctx: Context, x: InCode, b: Fn, c: Fn, s: State, t: State, u: State)
    requires Path(ctx, x.a, x.done.blocks, s, t) && At(ctx, b, c, t, u) && b.slots == x.a.slots && x.a.regs <= b.regs
    requires c.cur < |c.blocks| && Sub(c.Close(Br(x.M)).blocks, x.done.blocks)
    ensures Path(ctx, x.a, x.done.blocks, s, Enter(u, x.M))
  {
    SubOfClose(c, Br(x.M), x.done.blocks);
    PathArrives(ctx, x.a, b, c, x.done.blocks, s, t, u);
    PathJump(ctx, x.a, c, Br(x.M), x.M, x.done.blocks, s, u);
  }

  ghost predicate ResultIs(x: InCode, k: Goal) {
    k.t == Boolean && k.v == CodeGenValue(Reg(x.m.regs), Reg(x.m1.regs), NO_LENGTH)
  }

  /** The merge block reads the result from the slots. */
  lemma LandedDelivers(ctx: Context, x: InCode, s: State, t: State, found: bool, isNull: bool, k: Goal)
    requires Landed(ctx, x, s, t, found, isNull) && x.EndCode() && ResultIs(x, k)
    requires k.sem(ctx) == if isNull then Null else Value(VBool(found))
    ensures Delivers(ctx, x.a, x.done, [k], s)
  {
    Ready(ctx, x.m, t);
    var u := MergeLoads(ctx, x, t, found, isNull);
    MetBool(ctx, k, u, found, isNull);
    SubSame(x.done.blocks);
    PathArrives(ctx, x.a, x.m, x.done, x.done.blocks, s, t, u);
    assert MetAll(ctx, [k], u);
  }

  lemma SubSame(z: seq<Block>)
    ensures Sub(z, z)
  {
  }

  lemma MergeLoads(ctx: Context, x: InCode, t: State, found: bool, isNull: bool) returns (u: State)
    requires At(ctx, x.m, x.m, t, t) && x.EndCode() && Slot(t, x.a.slots, found) && Slot(t, x.a.slots + 1, isNull)
    ensures At(ctx, x.m, x.done, t, u) && Ev(u, Reg(x.m.regs)) == Some(VBool(found)) &&
      Ev(u, Reg(x.m1.regs)) == Some(VBool(isNull))
  {
    hide At, Fn.Ins, Fn.Add, Sub, Fn.Open;
    u := DoLoad(ctx, x.m, x.m, x.m1, t, t, x.a.slots, VBool(found));
    u := DoLoad(ctx, x.m, x.m1, x.done, t, u, x.a.slots + 1, VBool(isNull));
  }

  /** From the entry to the first comparison. */
  lemma EntryRuns(ctx: Context, schema: seq<Type>, x: InCode, s: State, t: State) returns (u: State)
    requires ContextOk(ctx, schema) && At(ctx, x.a, x.p, s, t) && x.EntryCode() && Computes(schema, x.p, x.v0, [x.g0])
    requires Slot(t, x.a.slots, false) && Slot(t, x.a.slots + 2, false)
    ensures Cruising(ctx, x.a, x.done.blocks, s, u, x.g0, false) && u.block == x.Cond(0) && u.idx == 0
  {
    hide Grown, Sub, Fn.Open, Delivers, Met, ContextOk;
    var z := x.done.blocks;
    assert Bounded([x.g0][0].v, x.v0.regs);
    EntrySubs(x);
    ReachesSub(ctx, x.p.blocks, z, s, t);
    assert Path(ctx, x.a, z, s, t);
    var v := PathVisit(ctx, schema, x.a, x.p, x.v0, [], [x.g0], z, s, t);
    OneOf(ctx, x.g0, v);
    u := EntryTail(ctx, x, s, v);
  }

  lemma EntryTail(ctx: Context, x: InCode, s: State, v: State) returns (u: State)
    requires Path(ctx, x.a, x.done.blocks, s, v) && x.v0.AtEnd(v) && x.v0.Open() && Met(ctx, x.g0, v) &&
      Bounded(x.g0.v, x.v0.regs)
    requires Slot(v, x.a.slots, false) && Slot(v, x.a.slots + 2, false) && x.a.regs <= x.v0.regs &&
      x.a.slots <= x.v0.slots
    requires IsStore(x.v0, x.a.slots + 1, x.g0.v.isNull, x.v1) && Sub(x.v1.blocks, x.done.blocks) &&
      Sub(x.v1.Close(Br(x.Cond(0))).blocks, x.done.blocks)
    ensures Cruising(ctx, x.a, x.done.blocks, s, u, x.g0, false) && u.block == x.Cond(0) && u.idx == 0
  {
    hide Sub, Fn.Open, Met, Fn.Ins, Path, Fn.Close;
    var z := x.done.blocks;
    var n := NullPart(ctx, x.g0, v);
    var b := FreeSlots(x.v0, x.a.slots);
    ReadyFree(ctx, x.v0, x.a.slots, v);
    var w := DoStore(ctx, b, x.v0, x.v1, v, v, x.a.slots + 1, x.g0.v.isNull, VBool(n));
    PathArrives(ctx, x.a, b, x.v1, z, s, v, w);
    PathJump(ctx, x.a, x.v1, Br(x.Cond(0)), x.Cond(0), z, s, w);
    u := Enter(w, x.Cond(0));
    MetHere(ctx, x.g0, x.v0.regs, v, u);
  }

  lemma EntrySubs(x: InCode)
    requires x.EntryCode() && Grown(x.p, x.v0)
    ensures Sub(x.p.blocks, x.done.blocks) && Sub(x.v0.blocks, x.done.blocks) && Sub(x.v1.blocks, x.done.blocks)
    ensures x.v0.Open() && x.p.regs <= x.v0.regs && x.p.slots <= x.v0.slots && x.v1.cur < |x.v1.blocks|
  {
    GrownStore(x.v0, x.v0, x.a.slots + 1, x.g0.v.isNull, x.v1) by { GrownStart(x.v0); }
    GrowsSub(x.v0, x.v1, {});
    GrowsSub(x.p, x.v0, {});
    SubOfClose(x.v1, Br(x.Cond(0)), x.done.blocks);
    SubTrans(x.v0.blocks, x.v1.blocks, x.done.blocks);
    SubTrans(x.p.blocks, x.v0.blocks, x.done.blocks);
  }

  lemma InRow(ctx: Context, schema: seq<Type>, x: InCode, k: Goal, s: State, t: State)
    requires ContextOk(ctx, schema) && At(ctx, x.a, x.p, s, t) && Slot(t, x.a.slots, false) &&
      Slot(t, x.a.slots + 2, false)
    requires x.EntryCode() && Computes(schema, x.p, x.v0, [x.g0]) && x.ElementsOk(schema) && x.EndCode() &&
      ResultIs(x, k)
    requires k.sem(ctx) == InSql(x.g0.sem(ctx), Listed(x.els, ctx))
    ensures Delivers(ctx, x.a, x.done, [k], s)
  {
    hide ContextOk, At, Cruising, Landed, InCode.EntryCode, InCode.ElementsOk, InCode.EndCode, Delivers, ResultIs;
    var gs := Goals(x.els);
    var list := Listed(x.els, ctx);
    assert forall i | 0 <= i < |gs| :: list[i] == gs[i].sem(ctx);
    var u := EntryRuns(ctx, schema, x, s, t);
    var w, h := ChainRuns(ctx, schema, x, 0, s, u, false);
    InSqlIs(x.g0.sem(ctx), list, FoundFrom(gs, x.g0, ctx, 0), NullFrom(gs, ctx, 0));
    if FoundFrom(gs, x.g0, ctx, 0) {
      var y := TrueLands(ctx, x, s, w, h);
      LandedDelivers(ctx, x, s, y, true, x.g0.sem(ctx).Null?, k);
    } else {
      var y := FalseLands(ctx, x, s, w, h);
      LandedDelivers(ctx, x, s, y, false, h || x.g0.sem(ctx).Null?, k);
    }
  }

  lemma InSqlIs(v: Sql, list: seq<Sql>, found: bool, someNull: bool)
    requires found == exists j | 0 <= j < |list| :: StrictlyEqual(v, list[j])
    requires someNull == exists j | 0 <= j < |list| :: list[j].Null?
    ensures InSql(v, list) == if found then TRUE else if v.Null? || someNull then Null else FALSE
    ensures found ==> v.Value?
  {
  }

  /** Slots and blocks are set up before the first operand is visited. */
  ghost predicate SetupCode(a: Fn, s1: Fn, s2: Fn, s3: Fn) {
    && IsStore(a.NewSlots(1), a.slots, Const(VBool(false)), s1)
    && IsStore(s1.NewSlots(1), s1.slots, Const(VBool(false)), s2)
    && IsStore(s2.NewSlots(1), s2.slots, Const(VBool(false)), s3)
  }

  lemma SetupRuns(ctx: Context, a: Fn, s1: Fn, s2: Fn, s3: Fn, s: State) returns (t: State)
    requires a.Open() && a.AtEnd(s) && SetupCode(a, s1, s2, s3)
    ensures At(ctx, a, s3, s, t) && Slot(t, a.slots, false) && Slot(t, a.slots + 2, false)
  {
    hide Fn.Open, Fn.Ins, At;
    Ready(ctx, a, s);
    AtSlots(ctx, a, a, s, s, 1);
    t := DoStore(ctx, a, a.NewSlots(1), s1, s, s, a.slots, Const(VBool(false)), VBool(false));
    AtSlots(ctx, a, s1, s, t, 1);
    t := DoStore(ctx, a, s1.NewSlots(1), s2, s, t, s1.slots, Const(VBool(false)), VBool(false));
    AtSlots(ctx, a, s2, s, t, 1);
    t := DoStore(ctx, a, s2.NewSlots(1), s3, s, t, s2.slots, Const(VBool(false)), VBool(false));
  }

  /** New blocks elsewhere do not disturb a run. */
  lemma AtMoreBlocks(ctx: Context, a: Fn, c: Fn, d: Fn, s: State, t: State)
    requires At(ctx, a, c, s, t) && d.Open() && d == c.(blocks := d.blocks) && c.blocks <= d.blocks
    ensures At(ctx, a, d, s, t)
  {
    assert Sub(c.blocks, d.blocks);
    ReachesSub(ctx, c.blocks, d.blocks, s, t);
  }

  ghost predicate InParts(schema: seq<Type>, x: InCode, s1: Fn, s2: Fn, s3: Fn, k: Goal) {
    && x.a.Open() && SetupCode(x.a, s1, s2, s3) && x.p.Open() && x.p == s3.(blocks := x.p.blocks) &&
      s3.blocks <= x.p.blocks
    && x.EntryCode() && Computes(schema, x.p, x.v0, [x.g0]) && x.ElementsOk(schema) && x.EndCode() && ResultIs(x, k)
  }

  lemma InRuns(ctx: Context, schema: seq<Type>, x: InCode, s1: Fn, s2: Fn, s3: Fn, k: Goal, s: State)
    requires InParts(schema, x, s1, s2, s3, k) && Starts(ctx, schema, x.a, s)
    requires k.sem(ctx) == InSql(x.g0.sem(ctx), Listed(x.els, ctx))
    ensures Delivers(ctx, x.a, x.done, [k], s)
  {
    hide Fn.Ins, Fn.Open, Fn.AtEnd, Grown, At, Listed, Delivers, Slot, InSql, ContextOk, InCode.EntryCode,
      InCode.ElementsOk, InCode.EndCode, ResultIs, SetupCode;
    var t := SetupRuns(ctx, x.a, s1, s2, s3, s);
    AtMoreBlocks(ctx, x.a, s3, x.p, s, t);
    InRow(ctx, schema, x, k, s, t);
  }

  /** IN computes: true on a match, else NULL if a NULL was involved, else false. */
  lemma InComputes(schema: seq<Type>, x: InCode, s1: Fn, s2: Fn, s3: Fn, k: Goal)
    requires Grown(x.a, x.done) && InParts(schema, x, s1, s2, s3, k)
    requires forall ctx | ContextOk(ctx, schema) :: k.sem(ctx) == InSql(x.g0.sem(ctx), Listed(x.els, ctx))
    ensures Computes(schema, x.a, x.done, [k])
  {
    hide InParts, Delivers, ContextOk, Grown;
    ResultBounded(schema, x, s1, s2, s3, k);
    forall ctx, s | Starts(ctx, schema, x.a, s) ensures Delivers(ctx, x.a, x.done, [k], s) {
      InRuns(ctx, schema, x, s1, s2, s3, k, s);
    }
  }

  lemma ResultBounded(schema: seq<Type>, x: InCode, s1: Fn, s2: Fn, s3: Fn, k: Goal)
    requires InParts(schema, x, s1, s2, s3, k)
    ensures BoundedAll([k], x.done.regs)
  {
  }

  // ---------- comparing one element ----------

  lemma IntElement(schema: seq<Type>, b: Fn, c1: Fn, c: Fn, g: Goal, h: Goal)
    requires b.Open() && BoundedAll([g, h], b.regs) && IsInteger(g.t) && IsInteger(h.t)
    requires IsAdd(b, CmpI(b.regs, EQ, g.v.data, h.v.data), c1) && IsAdd(c1, OrI(c1.regs, g.v.isNull, h.v.isNull), c)
    ensures ComputesFrom(schema, b, c, [g, h], [Goal(Boolean, CodeGenValue(Reg(b.regs), Reg(c1.regs), NO_LENGTH),
      Compared(g, h))])
  {
    hide Met, At, Grown, Delivers, Fn.Add, Fn.Open;
    var q := Goal(Boolean, CodeGenValue(Reg(b.regs), Reg(c1.regs), NO_LENGTH), Compared(g, h));
    GrownStart(b);
    GrownStep(b, b, CmpI(b.regs, EQ, g.v.data, h.v.data), c1);
    GrownStep(b, c1, OrI(c1.regs, g.v.isNull, h.v.isNull), c);
    forall ctx, s | Starts(ctx, schema, b, s) && MetAll(ctx, [g, h], s) ensures Delivers(ctx, b, c, [q], s) {
      TwoMet(ctx, g, h, s, b.regs);
      var x, n := IntParts(ctx, g, s);
      var y, m := IntParts(ctx, h, s);
      Ready(ctx, b, s);
      var t := DoCmp(ctx, b, b, c1, s, s, EQ, g.v.data, h.v.data, x, y);
      t := DoOr(ctx, b, c1, c, s, t, g.v.isNull, h.v.isNull, n, m);
      MetBool(ctx, q, t, x == y, n || m);
      DeliversOne(ctx, b, c, q, s, t);
    }
  }

  lemma StrElement(schema: seq<Type>, e: EqualCode, g: Goal, h: Goal)
    requires e.b.Open() && BoundedAll([g, h], e.b.regs) && g.t == Varchar && h.t == Varchar && e.Built(g.v, h.v)
    requires e.t1.cur < |e.t1.blocks| && e.D().f1.cur < |e.D().f1.blocks| && e.D().M < |e.D().f1.blocks|
    ensures ComputesFrom(schema, e.b, e.Done(), [g, h], [Goal(Boolean, CodeGenValue(e.Same(), Reg(e.b.regs), NO_LENGTH),
      Compared(g, h))])
  {
    hide Met, Grown, Delivers, Fn.Open, EqualCode.Done, EqualCode.Built;
    var n, k := Flag(Reg(e.b.regs), EitherNull(g, h)), Flag(e.Same(), Equal(g, h));
    var q := Goal(Boolean, CodeGenValue(e.Same(), Reg(e.b.regs), NO_LENGTH), Compared(g, h));
    EqualComputes(schema, e, g, h, k);
    PairElement(schema, e.b, e.Done(), g, h, n, k, q);
  }

  /** The equality flag and the null flag together are the comparison's value. */
  lemma PairElement(schema: seq<Type>, a: Fn, b: Fn, g: Goal, h: Goal, n: Goal, k: Goal, q: Goal)
    requires ComputesFrom(schema, a, b, [g, h], [g, h, n, k]) && g.t == Varchar && h.t == Varchar
    requires n == Flag(q.v.isNull, EitherNull(g, h)) && k == Flag(q.v.data, Equal(g, h))
    requires q.t == Boolean && q.v.length == NO_LENGTH && q.sem == Compared(g, h)
    ensures ComputesFrom(schema, a, b, [g, h], [q])
  {
    hide Grown;
    var all := [g, h, n, k];
    assert Bounded(all[2].v, b.regs) && Bounded(all[3].v, b.regs);
    forall ctx, s | Starts(ctx, schema, a, s) && MetAll(ctx, [g, h], s) ensures Delivers(ctx, a, b, [q], s) {
      assert Delivers(ctx, a, b, all, s);
      var u :| Arrives(ctx, a, b, s, u) && MetAll(ctx, all, u);
      PairMet(ctx, g, h, q, u, all);
      assert MetAll(ctx, [q], u);
    }
  }

  lemma PairMet(ctx: Context, g: Goal, h: Goal, q: Goal, u: State, all: seq<Goal>)
    requires all == [g, h, Flag(q.v.isNull, EitherNull(g, h)), Flag(q.v.data, Equal(g, h))] && MetAll(ctx, all, u)
    requires q.t == Boolean && q.v.length == NO_LENGTH && q.sem == Compared(g, h) && g.t == Varchar && h.t == Varchar
    ensures Met(ctx, q, u)
  {
    hide Met, Content;
    assert Met(ctx, all[0], u) && Met(ctx, all[1], u) && Met(ctx, all[2], u) && Met(ctx, all[3], u);
    FlagMet(ctx, q.v.isNull, EitherNull(g, h), u);
    FlagMet(ctx, q.v.data, Equal(g, h), u);
    var p, l, n := StrParts(ctx, g, u);
    var r, l', m := StrParts(ctx, h, u);
    MetBool(ctx, q, u, Equal(g, h)(ctx), n || m);
  }

  // ---------- the shape of the code ----------

  /** Three slots, then three blocks and one per element. */
  lemma SetupShape(a: Fn, s1: Fn, s2: Fn, s3: Fn)
    requires a.cur < |a.blocks| && SetupCode(a, s1, s2, s3)
    ensures |s3.blocks| == |a.blocks| && s3.slots == a.slots + 3 && s3.regs == a.regs
  {
  }

  lemma FirstPending(t: nat)
    ensures Pending(t, t + 3, t + 3) == {} + {t} + {t + 1} + {t + 2}
  {
  }

  lemma SetupGrows(a: Fn, s1: Fn, s2: Fn, s3: Fn)
    requires a.Open() && SetupCode(a, s1, s2, s3)
    ensures Grown(a, s3) && Grows(a, s3.NewBlock().NewBlock().NewBlock(),
      Pending(|a.blocks|, |a.blocks| + 3, |a.blocks| + 3))
    ensures |s3.blocks| == |a.blocks| && s3.slots == a.slots + 3 && s3.regs == a.regs
  {
    hide Grows, Fn.Ins, Fn.Open, Pending;
    var t := |a.blocks|;
    GrownStart(a);
    SetupShape(a, s1, s2, s3);
    FirstPending(t);
    GrownSlots(a, a, 1);
    GrownStore(a, a.NewSlots(1), a.slots, Const(VBool(false)), s1);
    GrownSlots(a, s1, 1);
    GrownStore(a, s1.NewSlots(1), s1.slots, Const(VBool(false)), s2);
    GrownSlots(a, s2, 1);
    GrownStore(a, s2.NewSlots(1), s2.slots, Const(VBool(false)), s3);
    GrowsNewBlock(a, s3, {});
    GrowsNewBlock(a, s3.NewBlock(), {} + {t});
    GrowsNewBlock(a, s3.NewBlock().NewBlock(), {} + {t} + {t + 1});
  }

  lemma OneMoreBlock(a: Fn, b: Fn, t: nat, lo: nat)
    requires Grows(a, b, Pending(t, lo, |b.blocks|)) && t + 2 < lo <= |b.blocks|
    ensures Grows(a, b.NewBlock(), Pending(t, lo, |b.blocks| + 1))
  {
    assert Pending(t, lo, |b.blocks|) + {|b.blocks|} == Pending(t, lo, |b.blocks| + 1);
    GrowsNewBlock(a, b, Pending(t, lo, |b.blocks|));
  }

  /** Into the first condition block. */
  lemma EntryJumps(a: Fn, v1: Fn, t: nat, hi: nat)
    requires Grows(a, v1, Pending(t, t + 3, hi)) && t + 3 < hi && v1.cur < |v1.blocks|
    ensures var c := v1.Close(Br(t + 3)).At(t + 3);
      Grows(a, c, Pending(t, t + 4, hi)) && Fresh(c) && Sub(v1.Close(Br(t + 3)).blocks, c.blocks)
  {
    PendingNext(t, t + 3, hi);
    JumpOn(a, v1, Pending(t, t + 3, hi), Br(t + 3), t + 3);
    SubSame(v1.Close(Br(t + 3)).blocks);
  }

  /** From one element to the next, or to the true block after the last. */
  lemma ElementJumps(schema: seq<Type>, a: Fn, g0: Goal, els: seq<Element>, el: Element, n: nat, hi: nat)
    requires |els| < n && hi == |a.blocks| + 3 + n && Grows(a, el.e, Pending(|a.blocks|, |a.blocks| + 4 + |els|, hi))
    requires ChainTo(schema, a, g0, els, n, el.st.blocks) && Sub(el.st.blocks, el.e.blocks) && el.e.cur < |el.e.blocks|
    requires el.Built(schema, g0, a.slots + 2) && el.st.cur == CondAt(a, n, |els|) && Fresh(el.st) &&
      LaterThan(a, el.st)
    ensures var last := |els| + 1 == n; var t := |a.blocks|;
      var next := if last then t else t + 4 + |els|;
      var c := el.e.Close(CondBr(el.Decision(), t, CondAt(a, n, |els| + 1))).At(next);
      && Grows(a, c, if last then {t + 1, t + 2} else Pending(t, t + 5 + |els|, hi)) && Fresh(c) && c.cur == next
      && ChainTo(schema, a, g0, els + [el], n, c.blocks) && c.regs == el.e.regs && c.slots == el.e.slots &&
        Sub(el.st.blocks, c.blocks)
  {
    hide Sub, Grows, Element.Built, Fresh, ChainTo, Pending;
    var last, t := |els| + 1 == n, |a.blocks|;
    var next := if last then t else t + 4 + |els|;
    var pend := Pending(t, t + 4 + |els|, hi);
    var term := CondBr(el.Decision(), t, CondAt(a, n, |els| + 1));
    var c := el.e.Close(term).At(next);
    PendingHere(t, |els|, n, hi);
    JumpOn(a, el.e, pend, term, next);
    SubTrans(el.st.blocks, el.e.blocks, c.blocks);
    SubSame(c.blocks);
    ChainMore(schema, a, g0, els, n, el.st.blocks, c.blocks);
    assert ElementAt(schema, a, g0, el, CondAt(a, n, |els|), CondAt(a, n, |els| + 1), c.blocks);
    ChainGrows(schema, a, g0, els, el, n, c.blocks);
  }

  lemma PendingHere(t: nat, i: nat, n: nat, hi: nat)
    requires i < n && hi == t + 3 + n
    ensures var pend := Pending(t, t + 4 + i, hi);
      && t in pend && t + 1 in pend && t + 2 in pend
      && if i + 1 == n then pend - {t} == {t + 1, t + 2}
         else t + 4 + i in pend && pend - {t + 4 + i} == Pending(t, t + 5 + i, hi)
  {
  }

  lemma JumpOn(a: Fn, b: Fn, pend: set<nat>, t: Term, next: nat)
    requires Grows(a, b, pend) && !t.Ret? && Succs(Some(t)) <= pend && next in pend
    ensures b.cur < |b.blocks| && Grows(a, b.Close(t).At(next), pend - {next}) && Fresh(b.Close(t).At(next))
    ensures Sub(b.blocks, b.Close(t).blocks)
  {
    GrowsJump(a, b, pend, t, next);
  }

  lemma ChainGrows(schema: seq<Type>, a: Fn, g0: Goal, els: seq<Element>, el: Element, n: nat, z: seq<Block>)
    requires ChainTo(schema, a, g0, els, n, z) && ElementAt(schema, a, g0, el, CondAt(a, n, |els|),
      CondAt(a, n, |els| + 1), z)
    ensures ChainTo(schema, a, g0, els + [el], n, z)
  {
    hide ElementAt;
    forall i | 0 <= i < |els + [el]| ensures ElementAt(schema, a, g0, (els + [el])[i], CondAt(a, n, i),
      CondAt(a, n, i + 1), z) {
      if i < |els| {
        assert ElementAt(schema, a, g0, els[i], CondAt(a, n, i), CondAt(a, n, i + 1), z);
      }
    }
  }

  /** The three closing blocks complete the code. */
  lemma EndsGrow(x: InCode)
    requires Grows(x.a, x.tr, {x.F, x.M}) && x.tr.cur == x.T && Fresh(x.tr) && LaterThan(x.a, x.tr)
    requires IsStore(x.tr, x.a.slots, Const(VBool(true)), x.tr1) && x.fa == x.tr1.Close(Br(x.M)).At(x.F)
    requires IsAdd(x.fa, LoadI(x.fa.regs, x.a.slots + 2), x.fa1) &&
      IsAdd(x.fa1, LoadI(x.fa1.regs, x.a.slots + 1), x.fa2)
    requires IsAdd(x.fa2, OrI(x.fa2.regs, Reg(x.fa.regs), Reg(x.fa1.regs)), x.fa3) &&
      IsStore(x.fa3, x.a.slots + 1, Reg(x.fa2.regs), x.fa4)
    requires x.m == x.fa4.Close(Br(x.M)).At(x.M)
    requires IsAdd(x.m, LoadI(x.m.regs, x.a.slots), x.m1) && IsAdd(x.m1, LoadI(x.m1.regs, x.a.slots + 1), x.done)
    ensures x.EndCode() && Grown(x.a, x.done) && Sub(x.tr.blocks, x.done.blocks)
  {
    hide Grows, Sub, Fn.Ins, Fn.Open;
    var a := x.a;
    GrowsIns(a, x.tr, {x.F, x.M}, [StoreI(a.slots, Const(VBool(true)))], 0);
    JumpOn(a, x.tr1, {x.F, x.M}, Br(x.M), x.F);
    assert {x.F, x.M} - {x.F} == {x.M} && {x.M} - {x.M} == {};
    GrowsStep(a, x.fa, LoadI(x.fa.regs, a.slots + 2), x.fa1, {x.M});
    GrowsStep(a, x.fa1, LoadI(x.fa1.regs, a.slots + 1), x.fa2, {x.M});
    GrowsStep(a, x.fa2, OrI(x.fa2.regs, Reg(x.fa.regs), Reg(x.fa1.regs)), x.fa3, {x.M});
    GrowsIns(a, x.fa3, {x.M}, [StoreI(a.slots + 1, Reg(x.fa2.regs))], 0);
    JumpOn(a, x.fa4, {x.M}, Br(x.M), x.M);
    GrowsStep(a, x.m, LoadI(x.m.regs, a.slots), x.m1, {});
    GrowsStep(a, x.m1, LoadI(x.m1.regs, a.slots + 1), x.done, {});
    EndSubs(x);
  }

  lemma EndSubs(x: InCode)
    requires x.tr1.cur < |x.tr1.blocks| && x.fa4.cur < |x.fa4.blocks|
    requires Sub(x.tr.blocks, x.tr1.blocks) && Sub(x.tr1.blocks, x.tr1.Close(Br(x.M)).blocks) &&
      x.fa.blocks == x.tr1.Close(Br(x.M)).blocks
    requires Sub(x.fa.blocks, x.fa1.blocks) && Sub(x.fa1.blocks, x.fa2.blocks) && Sub(x.fa2.blocks, x.fa3.blocks) &&
      Sub(x.fa3.blocks, x.fa4.blocks)
    requires Sub(x.fa4.blocks, x.fa4.Close(Br(x.M)).blocks) && x.m.blocks == x.fa4.Close(Br(x.M)).blocks
    requires Sub(x.m.blocks, x.m1.blocks) && Sub(x.m1.blocks, x.done.blocks)
    ensures Sub(x.tr.blocks, x.done.blocks) && Sub(x.tr1.Close(Br(x.M)).blocks, x.done.blocks) &&
      Sub(x.fa4.Close(Br(x.M)).blocks, x.done.blocks)
  {
    hide Sub, Fn.Close;
    var z := x.done.blocks;
    SubTrans(x.m.blocks, x.m1.blocks, z);
    SubTrans(x.fa4.blocks, x.m.blocks, z);
    SubTrans(x.fa3.blocks, x.fa4.blocks, z);
    SubTrans(x.fa2.blocks, x.fa3.blocks, z);
    SubTrans(x.fa1.blocks, x.fa2.blocks, z);
    SubTrans(x.fa.blocks, x.fa1.blocks, z);
    SubTrans(x.tr1.blocks, x.fa.blocks, z);
    SubTrans(x.tr.blocks, x.tr1.blocks, z);
  }
}
