/** A pipeline of operators: what each promises, what its states must satisfy, and how much work is left in it. */
module Pipeline {
  import opened SqlValues

  /** An operator as the driver sees it. `waiting` operators report themselves blocked. */
  datatype Operator<!S, !B> = Operator(
    needsInput: S -> bool,
    addInput: (S, B) -> S,
    noMoreInput: S -> S,
    getOutput: S -> (S, Option<B>),
    isFinished: S -> bool,
    waiting: S -> bool)

  /** What an operator promises. `rel(s, ins, outs, ended)` says that `s` is a state after the inputs `ins` and the
      outputs `outs`, `ended` once it was told that no more input comes; `transform` is the whole output for a whole
      input; `idle` bounds how often it comes back empty-handed without asking for input. */
  datatype Promise<!S(!new), !B(!new)> = Promise(
    rel: (S, seq<B>, seq<B>, bool) -> bool,
    transform: seq<B> -> seq<B>,
    idle: S -> nat)

  /** After an empty-handed call an operator is finished, asks for input, waits, or has used up some patience. */
  predicate Rested<S(!new), B(!new)>(op: Operator<S, B>, p: Promise<S, B>, s: S, t: S) {
    p.idle(t) <= p.idle(s) && (op.isFinished(t) || op.needsInput(t) || op.waiting(t) || p.idle(t) < p.idle(s))
  }

  /** Asking for input: nothing ended, and both answers are acceptable. */
  ghost predicate Feedable<S(!new), B(!new)>(op: Operator<S, B>, p: Promise<S, B>, s: S, ins: seq<B>, outs: seq<B>,
                             ended: bool) {
    && !ended && !op.isFinished(s) && p.rel(op.noMoreInput(s), ins, outs, true)
    && forall b: B :: p.rel(op.addInput(s, b), ins + [b], outs, false)
  }

  ghost predicate Pulled<S(!new), B(!new)>(op: Operator<S, B>, p: Promise<S, B>, s: S, ins: seq<B>, outs: seq<B>,
                           ended: bool) {
    var (t, out) := op.getOutput(s);
    match out
    case Some(b) => !op.isFinished(s) && p.rel(t, ins, outs + [b], ended)
    case None => p.rel(t, ins, outs, ended) && Rested(op, p, s, t) && (op.isFinished(s) ==> op.isFinished(t))
  }

  /** Whatever input still comes, what was put out so far is a prefix of what the operator owes. */
  ghost predicate OnTrack<S(!new), B(!new)>(p: Promise<S, B>, ins: seq<B>, outs: seq<B>, ended: bool) {
    if ended then outs <= p.transform(ins) else forall rest :: outs <= p.transform(ins + rest)
  }

  /** A finished operator has put out everything, even if it stopped reading early. */
  ghost predicate Complete<S(!new), B(!new)>(p: Promise<S, B>, ins: seq<B>, outs: seq<B>, ended: bool) {
    if ended then outs == p.transform(ins) else forall rest :: outs == p.transform(ins + rest)
  }

  /** The contract of an operator in one state. */
  ghost predicate Keeps<S(!new), B(!new)>(op: Operator<S, B>, p: Promise<S, B>, s: S, ins: seq<B>, outs: seq<B>,
                          ended: bool) {
    && (op.needsInput(s) ==> Feedable(op, p, s, ins, outs, ended))
    && Pulled(op, p, s, ins, outs, ended) && OnTrack(p, ins, outs, ended)
    && (op.isFinished(s) ==> Complete(p, ins, outs, ended))
  }

  ghost predicate Lawful<S(!new), B(!new)>(op: Operator<S, B>, p: Promise<S, B>) {
    forall s, ins, outs, ended | p.rel(s, ins, outs, ended) :: Keeps(op, p, s, ins, outs, ended)
  }

  /** The first operator of a pipeline is never fed. */
  ghost predicate Source<S(!new), B(!new)>(op: Operator<S, B>) {
    forall s: S :: !op.needsInput(s)
  }

  /** The state of a pipeline with its history: what each operator was given, put out, and whether its input ended. */
  datatype Run<!S, !B> = Run(states: seq<S>, ins: seq<seq<B>>, outs: seq<seq<B>>, ended: seq<bool>)

  ghost predicate Pipe<S(!new), B(!new)>(ops: seq<Operator<S, B>>, ps: seq<Promise<S, B>>) {
    && 1 <= |ops| == |ps| && Source(ops[0]) && forall i | 0 <= i < |ops| :: Lawful(ops[i], ps[i])
  }

  ghost predicate Sized<S(!new), B(!new)>(ops: seq<Operator<S, B>>, ps: seq<Promise<S, B>>, r: Run<S, B>) {
    |r.states| == |r.ins| == |r.outs| == |r.ended| == |ops| == |ps|
  }

  ghost predicate Related<S(!new), B(!new)>(ops: seq<Operator<S, B>>, ps: seq<Promise<S, B>>, r: Run<S, B>)
    requires Sized(ops, ps, r)
  {
    forall i | 0 <= i < |ops| :: ps[i].rel(r.states[i], r.ins[i], r.outs[i], r.ended[i])
  }

  /** Nothing is lost, duplicated or reordered between neighbours, and an input only ends when its producer finished. */
  ghost predicate Linked<S(!new), B(!new)>(ops: seq<Operator<S, B>>, ps: seq<Promise<S, B>>, r: Run<S, B>)
    requires Sized(ops, ps, r) && 1 <= |ops|
  {
    && r.ins[0] == [] && !r.ended[0]
    && (forall i | 0 < i < |ops| :: r.ins[i] == r.outs[i - 1])
    && (forall i | 0 < i < |ops| && r.ended[i] :: ops[i - 1].isFinished(r.states[i - 1]))
  }

  ghost predicate Ok<S(!new), B(!new)>(ops: seq<Operator<S, B>>, ps: seq<Promise<S, B>>, r: Run<S, B>) {
    Pipe(ops, ps) && Sized(ops, ps, r) && Related(ops, ps, r) && Linked(ops, ps, r)
  }

  /** The composition of the first `k` operators, applied to nothing: the source makes its own input. */
  function Composition<S(!new), B(!new)>(ps: seq<Promise<S, B>>, k: nat): seq<B>
    requires k <= |ps|
  {
    if k == 0 then [] else ps[k - 1].transform(Composition(ps, k - 1))
  }

  /** In any reachable state each operator's output is a prefix of the composition so far, all of it once finished. */
  lemma {:induction false} OutputsOnTrack<S(!new), B(!new)>(ops: seq<Operator<S, B>>, ps: seq<Promise<S, B>>, r: Run<S,
                                            B>, i: nat)
    requires Ok(ops, ps, r) && i < |ops|
    ensures r.outs[i] <= Composition(ps, i + 1)
    ensures ops[i].isFinished(r.states[i]) ==> r.outs[i] == Composition(ps, i + 1)
  {
    var whole := Composition(ps, i);
    var s, ins, outs, ended := r.states[i], r.ins[i], r.outs[i], r.ended[i];
    if i > 0 {
      OutputsOnTrack(ops, ps, r, i - 1);
    }
    assert ins <= whole && (ended ==> ins == whole);
    assert ins + whole[|ins|..] == whole;
    assert Keeps(ops[i], ps[i], s, ins, outs, ended);
    assert OnTrack(ps[i], ins, outs, ended);
  }

  /** An operator that never stops before its input has ended. */
  ghost predicate ReadsAll<S(!new), B(!new)>(op: Operator<S, B>, p: Promise<S, B>) {
    forall s, ins, outs, ended | p.rel(s, ins, outs, ended) && op.isFinished(s) :: ended
  }

  /** When the last operator is finished and none stopped early, every input has ended and was the whole composition. */
  lemma {:induction false} AllInputsEnded<S(!new), B(!new)>(ops: seq<Operator<S, B>>, ps: seq<Promise<S, B>>, r: Run<S,
                                            B>, i: nat)
    requires Ok(ops, ps, r) && 0 < i < |ops| && ops[|ops| - 1].isFinished(r.states[|ops| - 1])
    requires forall k | 0 < k < |ops| :: ReadsAll(ops[k], ps[k])
    ensures ops[i].isFinished(r.states[i]) && r.ended[i] && r.ins[i] == Composition(ps, i)
    decreases |ops| - i
  {
    if i + 1 < |ops| {
      AllInputsEnded(ops, ps, r, i + 1);
    }
    assert ps[i].rel(r.states[i], r.ins[i], r.outs[i], r.ended[i]);
    assert ReadsAll(ops[i], ps[i]);
    OutputsOnTrack(ops, ps, r, i - 1);
  }

  // ---------- the work that is left ----------

  function Sum(s: seq<nat>): nat {
    if |s| == 0 then 0 else s[0] + Sum(s[1..])
  }

  lemma {:induction false} SumUpdate(s: seq<nat>, i: nat, v: nat)
    requires i < |s|
    ensures Sum(s[i := v]) + s[i] == Sum(s) + v
  {
    if i == 0 {
      assert s[0 := v][1..] == s[1..];
    } else {
      assert s[i := v][1..] == s[1..][i - 1 := v];
      SumUpdate(s[1..], i - 1, v);
    }
  }

  /** What operator `i` still has to put out, and whether it still has to be told that its input ended. */
  ghost function Owed<S(!new), B(!new)>(ps: seq<Promise<S, B>>, r: Run<S, B>, i: nat): nat
    requires |r.outs| == |r.ended| == |ps| && i < |ps|
  {
    var n := |Composition(ps, i + 1)| - |r.outs[i]|;
    (if n < 0 then 0 else n) + if r.ended[i] then 0 else 1
  }

  ghost function Left<S(!new), B(!new)>(ps: seq<Promise<S, B>>, r: Run<S, B>): nat
    requires |r.outs| == |r.ended| == |ps|
  {
    Sum(seq(|ps|, i requires 0 <= i < |ps| => Owed(ps, r, i)))
  }

  ghost function IdleAt<S(!new), B(!new)>(ps: seq<Promise<S, B>>, r: Run<S, B>, i: nat): nat
    requires |r.states| == |ps| && i < |ps|
  {
    ps[i].idle(r.states[i])
  }

  ghost function Patience<S(!new), B(!new)>(ps: seq<Promise<S, B>>, r: Run<S, B>): nat
    requires |r.states| == |ps|
  {
    Sum(seq(|ps|, i requires 0 <= i < |ps| => IdleAt(ps, r, i)))
  }

  // ---------- the driver's moves ----------

  /** An empty-handed call: only the operator's own state moves. */
  function Poll<S, B>(r: Run<S, B>, i: nat, t: S): Run<S, B>
    requires i < |r.states|
  {
    r.(states := r.states[i := t])
  }

  /** A batch moves from operator `i` to its consumer. */
  function Move<S, B>(r: Run<S, B>, i: nat, t: S, b: B, u: S): Run<S, B>
    requires i + 1 < |r.states| == |r.ins| == |r.outs|
  {
    Run(r.states[i := t][i + 1 := u], r.ins[i + 1 := r.ins[i + 1] + [b]], r.outs[i := r.outs[i] + [b]], r.ended)
  }

  /** A batch leaves the last operator. */
  function Emit<S, B>(r: Run<S, B>, t: S, b: B): Run<S, B>
    requires 0 < |r.states| == |r.outs|
  {
    var i := |r.states| - 1;
    r.(states := r.states[i := t], outs := r.outs[i := r.outs[i] + [b]])
  }

  /** Operator `i` is told that its input ended. */
  function Finish<S, B>(r: Run<S, B>, i: nat, u: S): Run<S, B>
    requires i < |r.states| == |r.ended|
  {
    r.(states := r.states[i := u], ended := r.ended[i := true])
  }

  lemma LawfulAt<S(!new), B(!new)>(ops: seq<Operator<S, B>>, ps: seq<Promise<S, B>>, r: Run<S, B>, i: nat)
    requires Ok(ops, ps, r) && i < |ops|
    ensures Keeps(ops[i], ps[i], r.states[i], r.ins[i], r.outs[i], r.ended[i])
  {
  }

  /** Only operator `i` has moved, into a state that fits its history. */
  lemma RelatedUpdate<S(!new), B(!new)>(ops: seq<Operator<S, B>>, ps: seq<Promise<S, B>>, r: Run<S, B>, q: Run<S, B>,
                        i: nat)
    requires Sized(ops, ps, r) && Related(ops, ps, r) && Sized(ops, ps, q) && i < |ops|
    requires forall j | 0 <= j < |ops| && j != i ::
      q.states[j] == r.states[j] && q.ins[j] == r.ins[j] && q.outs[j] == r.outs[j] && q.ended[j] == r.ended[j]
    requires ps[i].rel(q.states[i], q.ins[i], q.outs[i], q.ended[i])
    ensures Related(ops, ps, q)
  {
  }

  lemma PollLinked<S(!new), B(!new)>(ops: seq<Operator<S, B>>, ps: seq<Promise<S, B>>, r: Run<S, B>, i: nat, t: S)
    requires Sized(ops, ps, r) && 1 <= |ops| && i < |ops| && Linked(ops, ps, r)
    requires ops[i].isFinished(r.states[i]) ==> ops[i].isFinished(t)
    ensures Sized(ops, ps, Poll(r, i, t)) && Linked(ops, ps, Poll(r, i, t))
  {
  }

  lemma PollKeeps<S(!new), B(!new)>(ops: seq<Operator<S, B>>, ps: seq<Promise<S, B>>, r: Run<S, B>, i: nat, t: S)
    requires Ok(ops, ps, r) && i < |ops| && ops[i].getOutput(r.states[i]) == (t, None)
    ensures Ok(ops, ps, Poll(r, i, t)) && Rested(ops[i], ps[i], r.states[i], t)
  {
    hide OnTrack, Complete, Feedable, Composition, Lawful, Linked, Related, Rested;
    LawfulAt(ops, ps, r, i);
    PollLinked(ops, ps, r, i, t);
    RelatedUpdate(ops, ps, r, Poll(r, i, t), i);
  }

  lemma LeftSame<S(!new), B(!new)>(ps: seq<Promise<S, B>>, r: Run<S, B>, q: Run<S, B>)
    requires |r.outs| == |r.ended| == |ps| && q.outs == r.outs && q.ended == r.ended
    ensures Left(ps, q) == Left(ps, r)
  {
    hide Composition;
    var a, b := seq(|ps|, k requires 0 <= k < |ps| => Owed(ps, q, k)),
      seq(|ps|, k requires 0 <= k < |ps| => Owed(ps, r, k));
    assert a == b;
  }

  lemma PollOk<S(!new), B(!new)>(ops: seq<Operator<S, B>>, ps: seq<Promise<S, B>>, r: Run<S, B>, i: nat, t: S)
    requires Ok(ops, ps, r) && i < |ops| && ops[i].getOutput(r.states[i]) == (t, None)
    ensures Ok(ops, ps, Poll(r, i, t)) && Rested(ops[i], ps[i], r.states[i], t)
    ensures Left(ps, Poll(r, i, t)) == Left(ps, r)
    ensures Patience(ps, Poll(r, i, t)) + ps[i].idle(r.states[i]) == Patience(ps, r) + ps[i].idle(t)
  {
    hide Left, Patience, Pipe, Related, Linked;
    PollKeeps(ops, ps, r, i, t);
    LeftSame(ps, r, Poll(r, i, t));
    IdleUpdate(ps, r, Poll(r, i, t), i);
  }

  lemma IdleUpdate<S(!new), B(!new)>(ps: seq<Promise<S, B>>, r: Run<S, B>, q: Run<S, B>, i: nat)
    requires |r.states| == |q.states| == |ps| && i < |ps| && q.states == r.states[i := q.states[i]]
    ensures Patience(ps, q) + ps[i].idle(r.states[i]) == Patience(ps, r) + ps[i].idle(q.states[i])
  {
    var a := seq(|ps|, k requires 0 <= k < |ps| => IdleAt(ps, r, k));
    var b := seq(|ps|, k requires 0 <= k < |ps| => IdleAt(ps, q, k));
    assert b == a[i := IdleAt(ps, q, i)];
    SumUpdate(a, i, IdleAt(ps, q, i));
  }

  lemma OwedUpdate<S(!new), B(!new)>(ps: seq<Promise<S, B>>, r: Run<S, B>, q: Run<S, B>, i: nat)
    requires |r.outs| == |r.ended| == |q.outs| == |q.ended| == |ps| && i < |ps|
    requires q.outs == r.outs[i := q.outs[i]] && q.ended == r.ended[i := q.ended[i]]
    ensures Left(ps, q) + Owed(ps, r, i) == Left(ps, r) + Owed(ps, q, i)
  {
    var a := seq(|ps|, k requires 0 <= k < |ps| => Owed(ps, r, k));
    var b := seq(|ps|, k requires 0 <= k < |ps| => Owed(ps, q, k));
    assert b == a[i := Owed(ps, q, i)];
    SumUpdate(a, i, Owed(ps, q, i));
  }

  /** One more batch out is less to do. */
  lemma OwesLess<S(!new), B(!new)>(ops: seq<Operator<S, B>>, ps: seq<Promise<S, B>>, r: Run<S, B>, q: Run<S, B>, i: nat,
                   b: B)
    requires Ok(ops, ps, r) && Ok(ops, ps, q) && i < |ops| && q.outs == r.outs[i := r.outs[i] + [b]] &&
      q.ended == r.ended
    ensures Left(ps, q) < Left(ps, r)
  {
    hide Ok, Left, Composition;
    Lengths(ops, ps, r);
    Lengths(ops, ps, q);
    OutputsOnTrack(ops, ps, q, i);
    OwedUpdate(ps, r, q, i);
  }

  lemma Lengths<S(!new), B(!new)>(ops: seq<Operator<S, B>>, ps: seq<Promise<S, B>>, r: Run<S, B>)
    requires Ok(ops, ps, r)
    ensures |r.states| == |r.ins| == |r.outs| == |r.ended| == |ops| == |ps|
  {
  }

  /** A moved batch is progress, however idle the operators become by it. */
  lemma MoveOk<S(!new), B(!new)>(ops: seq<Operator<S, B>>, ps: seq<Promise<S, B>>, r: Run<S, B>, i: nat, t: S, b: B)
    requires Ok(ops, ps, r) && i + 1 < |ops| && ops[i].getOutput(r.states[i]) == (t, Some(b)) &&
      ops[i + 1].needsInput(r.states[i + 1])
    ensures Ok(ops, ps, Move(r, i, t, b, ops[i + 1].addInput(r.states[i + 1], b)))
    ensures Left(ps, Move(r, i, t, b, ops[i + 1].addInput(r.states[i + 1], b))) < Left(ps, r)
  {
    var q := Move(r, i, t, b, ops[i + 1].addInput(r.states[i + 1], b));
    MoveKeeps(ops, ps, r, i, t, b);
    OwesLess(ops, ps, r, q, i, b);
  }

  lemma MoveKeeps<S(!new), B(!new)>(ops: seq<Operator<S, B>>, ps: seq<Promise<S, B>>, r: Run<S, B>, i: nat, t: S, b: B)
    requires Ok(ops, ps, r) && i + 1 < |ops| && ops[i].getOutput(r.states[i]) == (t, Some(b)) &&
      ops[i + 1].needsInput(r.states[i + 1])
    ensures Ok(ops, ps, Move(r, i, t, b, ops[i + 1].addInput(r.states[i + 1], b)))
  {
    hide Lawful, OnTrack, Complete, Pipe, Rested, Linked;
    MoveLinks(ops, ps, r, i, t, b);
    LawfulAt(ops, ps, r, i);
    LawfulAt(ops, ps, r, i + 1);
  }

  lemma MoveLinks<S(!new), B(!new)>(ops: seq<Operator<S, B>>, ps: seq<Promise<S, B>>, r: Run<S, B>, i: nat, t: S, b: B)
    requires Ok(ops, ps, r) && i + 1 < |ops| && ops[i].getOutput(r.states[i]) == (t, Some(b)) &&
      ops[i + 1].needsInput(r.states[i + 1])
    ensures Linked(ops, ps, Move(r, i, t, b, ops[i + 1].addInput(r.states[i + 1], b)))
  {
    hide Lawful, OnTrack, Complete, Rested, Related;
    LawfulAt(ops, ps, r, i + 1);
  }

  lemma EmitOk<S(!new), B(!new)>(ops: seq<Operator<S, B>>, ps: seq<Promise<S, B>>, r: Run<S, B>, t: S, b: B)
    requires Ok(ops, ps, r) && ops[|ops| - 1].getOutput(r.states[|ops| - 1]) == (t, Some(b))
    ensures Ok(ops, ps, Emit(r, t, b)) && Left(ps, Emit(r, t, b)) < Left(ps, r)
  {
    EmitKeeps(ops, ps, r, t, b);
    OwesLess(ops, ps, r, Emit(r, t, b), |ops| - 1, b);
  }

  lemma EmitKeeps<S(!new), B(!new)>(ops: seq<Operator<S, B>>, ps: seq<Promise<S, B>>, r: Run<S, B>, t: S, b: B)
    requires Ok(ops, ps, r) && ops[|ops| - 1].getOutput(r.states[|ops| - 1]) == (t, Some(b))
    ensures Ok(ops, ps, Emit(r, t, b))
  {
    hide Lawful, OnTrack, Complete;
    LawfulAt(ops, ps, r, |ops| - 1);
  }

  lemma FinishLinked<S(!new), B(!new)>(ops: seq<Operator<S, B>>, ps: seq<Promise<S, B>>, r: Run<S, B>, i: nat, u: S)
    requires Sized(ops, ps, r) && i + 1 < |ops| && Linked(ops, ps, r) && ops[i].isFinished(r.states[i]) &&
      !r.ended[i + 1]
    requires !ops[i + 1].isFinished(r.states[i + 1])
    ensures Sized(ops, ps, Finish(r, i + 1, u)) && Linked(ops, ps, Finish(r, i + 1, u))
  {
  }

  lemma FinishKeeps<S(!new), B(!new)>(ops: seq<Operator<S, B>>, ps: seq<Promise<S, B>>, r: Run<S, B>, i: nat)
    requires Ok(ops, ps, r) && i + 1 < |ops| && ops[i].isFinished(r.states[i]) && ops[i + 1].needsInput(r.states[i + 1])
    ensures !r.ended[i + 1] && Ok(ops, ps, Finish(r, i + 1, ops[i + 1].noMoreInput(r.states[i + 1])))
  {
    hide OnTrack, Complete, Pulled, Lawful, Linked, Related;
    LawfulAt(ops, ps, r, i + 1);
    var u := ops[i + 1].noMoreInput(r.states[i + 1]);
    FinishLinked(ops, ps, r, i, u);
    RelatedUpdate(ops, ps, r, Finish(r, i + 1, u), i + 1);
  }

  lemma FinishOk<S(!new), B(!new)>(ops: seq<Operator<S, B>>, ps: seq<Promise<S, B>>, r: Run<S, B>, i: nat)
    requires Ok(ops, ps, r) && i + 1 < |ops| && ops[i].isFinished(r.states[i]) && ops[i + 1].needsInput(r.states[i + 1])
    ensures !r.ended[i + 1] && Ok(ops, ps, Finish(r, i + 1, ops[i + 1].noMoreInput(r.states[i + 1])))
    ensures Left(ps, Finish(r, i + 1, ops[i + 1].noMoreInput(r.states[i + 1]))) < Left(ps, r)
  {
    hide Left, Related, Linked, Composition, Lawful;
    var q := Finish(r, i + 1, ops[i + 1].noMoreInput(r.states[i + 1]));
    FinishKeeps(ops, ps, r, i);
    OwedUpdate(ps, r, q, i + 1);
  }
}
