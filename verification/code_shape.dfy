/** A function under construction: its blocks, the insertion point, and the next free register and stack slot; and
    what it means for one to have grown out of another. */
module CodeShape {
  import opened SqlValues
  import opened Expressions
  import opened BlockIR

  function Succs(t: Option<Term>): set<nat> {
    match t
    case Some(Br(x)) => {x}
    case Some(CondBr(_, x, y)) => {x, y}
    case _ => {}
  }

  predicate IsPred(blocks: seq<Block>, p: nat, k: nat) {
    p < |blocks| && k in Succs(blocks[p].term)
  }

  datatype Fn = Fn(blocks: seq<Block>, cur: nat, regs: nat, slots: nat) {

    /** The insertion point is a block without a terminator, and branches stay inside the function. */
    ghost predicate Open() {
      && cur < |blocks| && blocks[cur].term.None?
      && forall p: nat, k: nat | IsPred(blocks, p, k) :: k < |blocks|
    }

    /** Append instructions at the insertion point, defining the next `defs` registers. */
    function Ins(instrs: seq<Instr>, defs: nat): Fn
      requires cur < |blocks|
    {
      Fn(blocks[cur := Block(blocks[cur].instrs + instrs, blocks[cur].term)], cur, regs + defs, slots)
    }

    /** Append one instruction that defines the next register. */
    function Add(i: Instr): Fn
      requires cur < |blocks|
    {
      Ins([i], 1)
    }

    function NewBlock(): Fn {
      this.(blocks := blocks + [Block([], None)])
    }

    function NewSlots(n: nat): Fn {
      this.(slots := slots + n)
    }

    /** Terminate the current block. */
    function Close(t: Term): Fn
      requires cur < |blocks|
    {
      this.(blocks := blocks[cur := Block(blocks[cur].instrs, Some(t))])
    }

    function At(b: nat): Fn {
      this.(cur := b)
    }

    /** The insertion point as a place in the machine. */
    ghost predicate AtEnd(s: State) {
      cur < |blocks| && s.block == cur && s.idx == |blocks[cur].instrs|
    }
  }

  /** A phi names each real predecessor of block k once and nothing else. */
  ghost predicate PhiOk(blocks: seq<Block>, k: nat, incoming: seq<(nat, Operand)>) {
    && (forall p: nat :: IsPred(blocks, p, k) <==> exists j :: 0 <= j < |incoming| && incoming[j].0 == p)
    && (forall i, j | 0 <= i < j < |incoming| :: incoming[i].0 != incoming[j].0)
  }

  /** The phis of block k are right and stand before everything else. */
  ghost predicate PhisOk(blocks: seq<Block>, k: nat) {
    k < |blocks| &&
    forall i | 0 <= i < |blocks[k].instrs| && blocks[k].instrs[i].PhiI? ::
      PhiOk(blocks, k, blocks[k].instrs[i].incoming) && forall j | 0 <= j < i :: blocks[k].instrs[j].PhiI?
  }

  /** `b` grew out of `a`, except that the fresh blocks in `pend` are created but not yet filled. Old
      blocks other than the insertion point are untouched; fresh blocks are terminated, have right
      phis, and are all that new branches go to. */
  ghost predicate Grows(a: Fn, b: Fn, pend: set<nat>) {
    && a.Open() && b.Open()
    && |a.blocks| <= |b.blocks| && a.regs <= b.regs && a.slots <= b.slots
    && (b.cur == a.cur || |a.blocks| <= b.cur) && b.cur !in pend
    && (forall k | k in pend :: |a.blocks| <= k < |b.blocks| && b.blocks[k] == Block([], None))
    && (forall k | 0 <= k < |a.blocks| && k != a.cur :: b.blocks[k] == a.blocks[k])
    && a.blocks[a.cur].instrs <= b.blocks[a.cur].instrs
    && (forall i | |a.blocks[a.cur].instrs| <= i < |b.blocks[a.cur].instrs| :: !b.blocks[a.cur].instrs[i].PhiI?)
    && (b.cur != a.cur ==> b.blocks[a.cur].term.Some? && !b.blocks[a.cur].term.value.Ret?)
    && (forall k | |a.blocks| <= k < |b.blocks| && k != b.cur && k !in pend ::
      b.blocks[k].term.Some? && !b.blocks[k].term.value.Ret?)
    && (forall p: nat, k: nat | p < |b.blocks| && (p == a.cur || |a.blocks| <= p) && IsPred(b.blocks, p, k) ::
      |a.blocks| <= k < |b.blocks|)
    && (forall k | |a.blocks| <= k < |b.blocks| :: PhisOk(b.blocks, k))
  }

  ghost predicate Grown(a: Fn, b: Fn) {
    Grows(a, b, {})
  }

  lemma GrowsSelf(a: Fn)
    requires a.Open()
    ensures Grown(a, a)
  {
  }

  lemma GrowsSub(a: Fn, b: Fn, pend: set<nat>)
    requires Grows(a, b, pend)
    ensures Sub(a.blocks, b.blocks)
  {
  }

  /** Plain instructions do not disturb the shape. */
  lemma GrowsIns(a: Fn, b: Fn, pend: set<nat>, instrs: seq<Instr>, defs: nat)
    requires Grows(a, b, pend)
    requires forall i | 0 <= i < |instrs| :: !instrs[i].PhiI?
    ensures Grows(a, b.Ins(instrs, defs), pend)
    ensures Sub(b.blocks, b.Ins(instrs, defs).blocks)
  {
    var c := b.Ins(instrs, defs);
    forall p: nat, k: nat ensures IsPred(c.blocks, p, k) <==> IsPred(b.blocks, p, k) {}
    forall k | |a.blocks| <= k < |c.blocks| ensures PhisOk(c.blocks, k) {
      SamePreds(b.blocks, c.blocks, k);
    }
  }

  /** Phis stay right when block k keeps its phis and its predecessors. */
  lemma SamePreds(bs: seq<Block>, cs: seq<Block>, k: nat)
    requires PhisOk(bs, k) && k < |cs| && bs[k].instrs <= cs[k].instrs
    requires forall i | |bs[k].instrs| <= i < |cs[k].instrs| :: !cs[k].instrs[i].PhiI?
    requires forall p: nat :: IsPred(cs, p, k) <==> IsPred(bs, p, k)
    ensures PhisOk(cs, k)
  {
    forall i | 0 <= i < |cs[k].instrs| && cs[k].instrs[i].PhiI?
      ensures PhiOk(cs, k, cs[k].instrs[i].incoming) && forall j | 0 <= j < i :: cs[k].instrs[j].PhiI?
    {
      assert bs[k].instrs[i] == cs[k].instrs[i];
      assert PhiOk(bs, k, bs[k].instrs[i].incoming);
    }
  }

  lemma GrowsNewBlock(a: Fn, b: Fn, pend: set<nat>)
    requires Grows(a, b, pend)
    ensures Grows(a, b.NewBlock(), pend + {|b.blocks|})
    ensures Sub(b.blocks, b.NewBlock().blocks)
  {
    var c := b.NewBlock();
    forall p: nat, k: nat ensures IsPred(c.blocks, p, k) <==> IsPred(b.blocks, p, k) {}
    forall k | |a.blocks| <= k < |c.blocks| ensures PhisOk(c.blocks, k) {
      if k < |b.blocks| {
        SamePreds(b.blocks, c.blocks, k);
      }
    }
  }

  lemma GrowsNewSlots(a: Fn, b: Fn, pend: set<nat>, n: nat)
    requires Grows(a, b, pend)
    ensures Grows(a, b.NewSlots(n), pend)
  {
  }

  /** A branch to pending blocks ends the current one; building goes on at a pending block. */
  lemma GrowsJump(a: Fn, b: Fn, pend: set<nat>, t: Term, next: nat)
    requires Grows(a, b, pend) && !t.Ret? && b.cur < |b.blocks|
    requires Succs(Some(t)) <= pend && next in pend
    ensures Grows(a, b.Close(t).At(next), pend - {next}) && next < |b.blocks|
    ensures b.Close(t).blocks[next] == Block([], None)
    ensures Sub(b.blocks, b.Close(t).At(next).blocks)
  {
    var c := b.Close(t).At(next);
    forall p: nat, k: nat | p < |c.blocks| && (p == a.cur || |a.blocks| <= p) && IsPred(c.blocks, p, k)
      ensures |a.blocks| <= k < |c.blocks|
    {
      assert p != b.cur ==> IsPred(b.blocks, p, k);
    }
    forall p: nat, k: nat | IsPred(c.blocks, p, k) ensures k < |c.blocks| {
      assert p != b.cur ==> IsPred(b.blocks, p, k);
    }
    forall k | |a.blocks| <= k < |c.blocks| ensures PhisOk(c.blocks, k) {
      if k !in pend {
        forall p: nat ensures IsPred(c.blocks, p, k) <==> IsPred(b.blocks, p, k) {}
        SamePreds(b.blocks, c.blocks, k);
      }
    }
  }

  /** A complete growth step in between keeps the pending blocks pending. */
  lemma GrowsThen(a: Fn, b: Fn, c: Fn, pend: set<nat>)
    requires Grows(a, b, pend) && Grown(b, c)
    ensures Grows(a, c, pend) && c.cur < |c.blocks| && Sub(b.blocks, c.blocks)
  {
    forall k | k in pend ensures c.blocks[k] == Block([], None) {
      assert b.blocks[k] == Block([], None);
    }
    forall p: nat, k: nat | p < |c.blocks| && (p == a.cur || |a.blocks| <= p) && IsPred(c.blocks, p, k)
      ensures |a.blocks| <= k < |c.blocks|
    {
      if p < |b.blocks| && p != b.cur {
        assert IsPred(b.blocks, p, k);
      }
    }
    forall k | |a.blocks| <= k < |c.blocks| ensures PhisOk(c.blocks, k) {
      if k < |b.blocks| {
        forall p: nat ensures IsPred(c.blocks, p, k) <==> IsPred(b.blocks, p, k) {
          if p < |c.blocks| && (p == b.cur || |b.blocks| <= p) && IsPred(c.blocks, p, k) {
            assert false;
          }
        }
        SamePreds(b.blocks, c.blocks, k);
      }
    }
  }

  /** A complete growth step gives an existing block no new predecessor. */
  lemma GrownPreds(b: Fn, c: Fn, p: nat, k: nat)
    requires Grown(b, c) && k < |b.blocks|
    ensures IsPred(c.blocks, p, k) <==> IsPred(b.blocks, p, k)
  {
  }

  lemma GrownTrans(a: Fn, b: Fn, c: Fn)
    requires Grown(a, b) && Grown(b, c)
    ensures Grown(a, c)
  {
    GrowsThen(a, b, c, {});
  }

  /** Phis may open a fresh block once its predecessors are all in place. */
  lemma GrowsPhis(a: Fn, b: Fn, pend: set<nat>, phis: seq<Instr>, defs: nat)
    requires Grows(a, b, pend) && |a.blocks| <= b.cur && b.blocks[b.cur].instrs == []
    requires forall i | 0 <= i < |phis| :: phis[i].PhiI? && PhiOk(b.blocks, b.cur, phis[i].incoming)
    ensures Grows(a, b.Ins(phis, defs), pend)
    ensures Sub(b.blocks, b.Ins(phis, defs).blocks)
  {
    var c := b.Ins(phis, defs);
    forall p: nat, k: nat ensures IsPred(c.blocks, p, k) <==> IsPred(b.blocks, p, k) {}
    forall k | |a.blocks| <= k < |c.blocks| ensures PhisOk(c.blocks, k) {
      if k != b.cur {
        SamePreds(b.blocks, c.blocks, k);
      } else {
        forall i | 0 <= i < |phis| ensures PhiOk(c.blocks, k, phis[i].incoming) {
          assert PhiOk(b.blocks, k, phis[i].incoming);
        }
      }
    }
  }

  /** Exactly the blocks in `ps` branch to block k. */
  ghost predicate PredsAre(blocks: seq<Block>, k: nat, ps: set<nat>) {
    forall p: nat :: IsPred(blocks, p, k) <==> p in ps
  }

  lemma PredsGrown(b: Fn, c: Fn, k: nat, ps: set<nat>)
    requires Grown(b, c) && k < |b.blocks| && PredsAre(b.blocks, k, ps)
    ensures PredsAre(c.blocks, k, ps)
  {
    forall p: nat ensures IsPred(c.blocks, p, k) <==> p in ps {
      GrownPreds(b, c, p, k);
    }
  }

  lemma PredsClose(b: Fn, k: nat, ps: set<nat>, t: Term, next: nat)
    requires b.Open() && PredsAre(b.blocks, k, ps)
    ensures PredsAre(b.Close(t).At(next).blocks, k, if k in Succs(Some(t)) then ps + {b.cur} else ps)
  {
    var c := b.Close(t).At(next);
    forall p: nat | p != b.cur ensures IsPred(c.blocks, p, k) <==> IsPred(b.blocks, p, k) {}
  }

  lemma InsIns(b: Fn, xs: seq<Instr>, m: nat, ys: seq<Instr>, n: nat)
    requires b.cur < |b.blocks|
    ensures b.Ins(xs, m).Ins(ys, n) == b.Ins(xs + ys, m + n)
  {
    assert b.blocks[b.cur].instrs + xs + ys == b.blocks[b.cur].instrs + (xs + ys);
    assert b.Ins(xs, m).Ins(ys, n).blocks == b.Ins(xs + ys, m + n).blocks;
  }

  // ---------- running what was appended ----------

  /** Everything the code before `fn` defined is still there in `t`. */
  ghost predicate Frame(fn: Fn, s: State, t: State) {
    && (forall r: nat | r < fn.regs && r in s.regs :: r in t.regs && t.regs[r] == s.regs[r])
    && (forall x: nat | x < fn.slots && x in s.slots :: x in t.slots && t.slots[x] == s.slots[x])
  }

  ghost predicate Arrives(ctx: Context, a: Fn, b: Fn, s: State, t: State) {
    Reaches(ctx, b.blocks, s, t) && b.AtEnd(t) && Frame(a, s, t)
  }

  lemma GrownAdd(a: Fn, b: Fn, i: Instr, defs: nat)
    requires Grown(a, b) && !i.PhiI?
    ensures Grown(a, b.Ins([i], defs))
  {
    GrowsIns(a, b, {}, [i], defs);
  }

  lemma ExecMoves(ctx: Context, i: Instr, s: State)
    ensures Exec(ctx, i, s).Some? ==>
      var t := Exec(ctx, i, s).value; t.block == s.block && t.idx == s.idx + 1 && t.prev == s.prev
  {
  }

  /** One more instruction after code that ran. */
  lemma ArrivesIns(ctx: Context, a: Fn, b: Fn, s: State, t: State, i: Instr, defs: nat, u: State)
    requires b.Open() && a.regs <= b.regs && a.slots <= b.slots
    requires Arrives(ctx, a, b, s, t) && Exec(ctx, i, t) == Some(u) && Frame(a, t, u)
    ensures Arrives(ctx, a, b.Ins([i], defs), s, u) && b.Ins([i], defs).Open()
  {
    var more := b.Ins([i], defs).blocks;
    forall p: nat, k: nat ensures IsPred(more, p, k) <==> IsPred(b.blocks, p, k) {}
    ReachesSub(ctx, b.blocks, more, s, t);
    assert more[b.cur].instrs[t.idx] == i;
    ExecMoves(ctx, i, t);
    ReachesStep(ctx, more, t, u);
    ReachesTrans(ctx, more, s, t, u);
  }

  lemma ArrivesSelf(ctx: Context, a: Fn, s: State)
    requires a.AtEnd(s)
    ensures Arrives(ctx, a, a, s, s)
  {
    ReachesSelf(ctx, a.blocks, s);
  }
}
