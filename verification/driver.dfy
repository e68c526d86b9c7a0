/** The driver: pulls batches down a pipeline with an index that walks backwards and jumps forwards. */
module Driver {
  import opened SqlValues
  import opened Pipeline

  datatype StopReason = KNone | KBlock | KAtEnd

  /** The calls an operator receives from the driver, other than polls. */
  datatype Call<B> = AddInput(batch: B) | NoMoreInput

  /** Every input once and in order, and at most one end mark, behind the last of them. */
  function History<B>(ins: seq<B>, ended: bool): seq<Call<B>> {
    seq(|ins|, i requires 0 <= i < |ins| => AddInput(ins[i])) + if ended then [NoMoreInput] else []
  }

  /** The log of calls is exactly the histories. */
  ghost predicate Logged<S, B>(r: Run<S, B>, calls: seq<seq<Call<B>>>) {
    |calls| == |r.ins| == |r.ended| && forall i | 0 <= i < |calls| :: calls[i] == History(r.ins[i], r.ended[i])
  }

  lemma LoggedMove<S, B>(r: Run<S, B>, calls: seq<seq<Call<B>>>, i: nat, t: S, b: B, u: S)
    requires Logged(r, calls) && i + 1 < |calls| == |r.states| == |r.outs| && !r.ended[i + 1]
    ensures Logged(Move(r, i, t, b, u), calls[i + 1 := calls[i + 1] + [AddInput(b)]])
  {
    assert History(r.ins[i + 1] + [b], false) == History(r.ins[i + 1], false) + [AddInput(b)];
  }

  lemma LoggedFinish<S, B>(r: Run<S, B>, calls: seq<seq<Call<B>>>, i: nat, u: S)
    requires Logged(r, calls) && i < |calls| == |r.states| && !r.ended[i]
    ensures Logged(Finish(r, i, u), calls[i := calls[i] + [NoMoreInput]])
  {
    assert History(r.ins[i], true) == History(r.ins[i], false) + [NoMoreInput];
  }

  lemma LoggedPoll<S, B>(r: Run<S, B>, calls: seq<seq<Call<B>>>, i: nat, t: S)
    requires Logged(r, calls) && i < |r.states|
    ensures Logged(Poll(r, i, t), calls)
  {
  }

  lemma LoggedEmit<S, B>(r: Run<S, B>, calls: seq<seq<Call<B>>>, t: S, b: B)
    requires Logged(r, calls) && 0 < |r.states| == |r.outs|
    ensures Logged(Emit(r, t, b), calls)
  {
  }

  lemma MoveFields<S, B>(r: Run<S, B>, i: nat, t: S, b: B, u: S)
    requires i + 1 < |r.states| == |r.ins| == |r.outs|
    ensures var q := Move(r, i, t, b, u);
      q.states == r.states[i := t][i + 1 := u] && |q.outs| == |r.outs| && q.outs[|r.outs| - 1] == r.outs[|r.outs| - 1]
  {
  }

  /** A consumer that asks for input has not been told otherwise, so the last operator is not finished before it is
      fed. */
  lemma EndsKept<S(!new), B(!new)>(ops: seq<Operator<S, B>>, ps: seq<Promise<S, B>>, r: Run<S, B>, i: nat)
    requires Ok(ops, ps, r) && i + 1 < |ops| && ops[i + 1].needsInput(r.states[i + 1])
    ensures !r.ended[i + 1] && !ops[i + 1].isFinished(r.states[i + 1]) && |r.ins| == |r.ended| == |ops|
  {
    LawfulAt(ops, ps, r, i + 1);
  }

  /** Polling a finished last operator leaves it finished. */
  lemma LastKeeps<S(!new), B(!new)>(ops: seq<Operator<S, B>>, ps: seq<Promise<S, B>>, r: Run<S, B>)
    requires Ok(ops, ps, r)
    ensures var i := |ops| - 1; ops[i].isFinished(r.states[i]) ==>
      ops[i].getOutput(r.states[i]).1.None? && ops[i].isFinished(ops[i].getOutput(r.states[i]).0)
  {
    LawfulAt(ops, ps, r, |ops| - 1);
  }

  /** Work and patience have not grown, and `less` says that one of them shrank. */
  predicate Fewer(work: nat, slack: nat, workWas: nat, slackWas: nat, less: bool) {
    if less then work < workWas || (work == workWas && slack < slackWas) else work == workWas && slack == slackWas
  }

  function Emitted<B>(result: Option<B>): seq<B> {
    if result.Some? then [result.value] else []
  }

  class OmniDriver<S(!new), B(!new)> {
    const operators: seq<Operator<S, B>>
    var states: seq<S>
    var curOperatorId: nat
    var blockedOperatorId: nat
    var finished: bool
    var shouldStop: bool

    ghost const promises: seq<Promise<S, B>>
    /** The history of all calls, and the batches handed out by Next so far. */
    ghost var run: Run<S, B>
    ghost var calls: seq<seq<Call<B>>>
    ghost var delivered: seq<B>

    /** What the whole pipeline computes. */
    ghost function Whole(): seq<B> {
      Composition(promises, |promises|)
    }

    /** Everything between two driver moves, but for the batch in the driver's hands. */
    ghost predicate Steady()
      reads this`states, this`run, this`calls, this`finished
    {
      && Ok(operators, promises, run) && Logged(run, calls) && states == run.states &&
        |states| == |calls| == |run.outs| == |operators| == |promises| >= 1
      && (finished ==> operators[|operators| - 1].isFinished(states[|operators| - 1]))
    }

    ghost predicate Valid()
      reads this`states, this`run, this`calls, this`finished, this`delivered
    {
      Steady() && run.outs[|operators| - 1] == delivered
    }

    constructor (operators: seq<Operator<S, B>>, states: seq<S>, ghost promises: seq<Promise<S, B>>)
      requires Pipe(operators, promises) && |states| == |operators|
      requires forall i | 0 <= i < |operators| :: promises[i].rel(states[i], [], [], false)
      ensures Valid() && this.operators == operators && this.promises == promises && delivered == [] && !finished
    {
      this.operators, this.states, this.promises := operators, states, promises;
      curOperatorId, blockedOperatorId, finished, shouldStop := 0, 0, false, false;
      run := Run(states, seq(|operators|, i => []), seq(|operators|, i => []), seq(|operators|, i => false));
      calls := seq(|operators|, i => []);
      delivered := [];
    }

    ghost function Work(): nat
      requires Steady()
      reads this`states, this`run, this`calls, this`finished
    {
      Left(promises, run)
    }

    ghost function Slack(): nat
      requires Steady()
      reads this`states, this`run, this`calls, this`finished
    {
      Patience(promises, run)
    }

    /** Any operator may report itself blocked at any time; a waiting one does. */
    method IsBlocked(i: nat) returns (blocked: bool)
      requires i < |operators| == |states|
      ensures operators[i].waiting(states[i]) ==> blocked
    {
      blocked := *;
      blocked := blocked || operators[i].waiting(states[i]);
    }

    /** Pull from operator `i` and push what comes into its consumer, which asked for it. */
    method Pull(i: nat) returns (moved: bool)
      requires Steady() && i + 1 < |operators| && operators[i + 1].needsInput(states[i + 1])
      modifies this`states, this`run, this`calls
      ensures Steady()
      ensures run.outs[|operators| - 1] == old(run.outs[|operators| - 1])
      ensures moved ==> Work() < old(Work())
      ensures !moved ==> Work() == old(Work()) && CameEmpty(i, old(states), old(Slack()))
    {
      hide Ok, Logged, Left, Patience, Move;
      EndsKept(operators, promises, run, i);
      var (t, intermediateResult) := operators[i].getOutput(states[i]);
      moved := intermediateResult.Some?;
      if moved {
        var b := intermediateResult.value;
        MoveOk(operators, promises, run, i, t, b);
        var u := operators[i + 1].addInput(states[i + 1], b);
        LoggedMove(run, calls, i, t, b, u);
        MoveFields(run, i, t, b, u);
        calls := calls[i + 1 := calls[i + 1] + [AddInput(b)]];
        run := Move(run, i, t, b, u);
        states := states[i := t][i + 1 := u];
      } else {
        PollOk(operators, promises, run, i, t);
        LoggedPoll(run, calls, i, t);
        run := Poll(run, i, t);
        states := states[i := t];
      }
    }

    /** An empty-handed call changed only operator `i`, which rested. */
    ghost predicate CameEmpty(i: nat, before: seq<S>, slack: nat)
      requires Steady() && i < |before| == |operators|
      reads this`states, this`run, this`calls, this`finished
    {
      && states == before[i := states[i]] && Slack() + promises[i].idle(before[i]) == slack +
        promises[i].idle(states[i])
      && Rested(operators[i], promises[i], before[i], states[i])
    }

    /** Pull from the last operator. */
    method PullLast() returns (result: Option<B>)
      requires Steady()
      modifies this`states, this`run
      ensures Steady() && run.outs[|operators| - 1] == old(run.outs[|operators| - 1]) + Emitted(result)
      ensures result.Some? ==>
        Work() < old(Work()) && !operators[|operators| - 1].isFinished(old(states[|operators| - 1]))
      ensures result.None? ==> Work() == old(Work()) && CameEmpty(|operators| - 1, old(states), old(Slack()))
    {
      hide Ok, Logged, Left, Patience;
      var i := |operators| - 1;
      var (t, out) := operators[i].getOutput(states[i]);
      result := out;
      LastKeeps(operators, promises, run);
      if out.Some? {
        EmitOk(operators, promises, run, t, out.value);
        LoggedEmit(run, calls, t, out.value);
        run := Emit(run, t, out.value);
      } else {
        PollOk(operators, promises, run, i, t);
        LoggedPoll(run, calls, i, t);
        run := Poll(run, i, t);
      }
      states := states[i := t];
    }

    /** Operator `i` is finished: tell its consumer. */
    method EndInput(i: nat)
      requires Steady() && i + 1 < |operators| && operators[i].isFinished(states[i]) &&
        operators[i + 1].needsInput(states[i + 1])
      modifies this`states, this`run, this`calls
      ensures Steady() && run.outs == old(run.outs) && Work() < old(Work())
    {
      hide Ok, Logged, Left;
      EndsKept(operators, promises, run, i);
      FinishOk(operators, promises, run, i);
      var u := operators[i + 1].noMoreInput(states[i + 1]);
      LoggedFinish(run, calls, i + 1, u);
      calls := calls[i + 1 := calls[i + 1] + [NoMoreInput]];
      run := Finish(run, i + 1, u);
      states := states[i + 1 := u];
    }

    /** No progress so far in this walk: every operator behind `i` asks for input, or the last one waits. */
    ghost predicate Quiet(i: int)
      requires Steady()
      reads this`states, this`run, this`calls, this`finished
    {
      forall j | i < j < |operators| && 0 <= j ::
        operators[j].needsInput(states[j]) || (i == |operators| - 2 && operators[j].waiting(states[j]))
    }

    lemma QuietStarts()
      requires Steady()
      ensures |states| == |operators| >= 1 && Quiet(|operators| - 1)
    {
    }

    lemma QuietEnds()
      requires Steady() && Quiet(-1)
      ensures |operators| == 1 && operators[0].waiting(states[0])
    {
      assert Source(operators[0]);
    }

    ghost predicate Shrunk(work: nat, slack: nat, less: bool)
      requires Steady()
      reads this`states, this`run, this`calls, this`finished
    {
      Fewer(Work(), Slack(), work, slack, less)
    }

    /** Operators `i` and `i + 1`: move a batch or an end mark between them if the consumer asks. */
    method Feed(i: nat) returns (step: Step, ghost less: bool)
      requires Valid() && i + 1 < |operators|
      modifies this`states, this`run, this`calls, this`blockedOperatorId
      ensures Valid() && Shrunk(old(Work()), old(Slack()), less)
      ensures step == Jump || step == Restart ==> Work() < old(Work())
      ensures step == Walk && !less && old(Quiet(i)) ==> Quiet(i - 1)
    {
      hide Ok, Logged, Left, Patience, Composition;
      less := false;
      var waits := IsBlocked(i + 1);
      if waits {
        blockedOperatorId := i + 1;
        return Blocked, less;
      }
      if !operators[i + 1].needsInput(states[i + 1]) {
        return Walk, less;
      }
      ghost var slack := Slack();
      var moved := Pull(i);
      less := moved || Slack() < slack;
      if moved {
        return Jump, less;
      }
      waits := IsBlocked(i);
      if waits {
        blockedOperatorId := i;
        return Blocked, less;
      }
      if operators[i].isFinished(states[i]) {
        EndInput(i);
        return Restart, true;
      }
      return Walk, less;
    }

    /** The last operator: a batch goes to the caller, and the pipeline may be finished. */
    method Drain() returns (result: Option<B>, stop: StopReason, ghost less: bool)
      requires Valid()
      modifies this`states, this`run, this`finished
      ensures Steady() && run.outs[|operators| - 1] == delivered + Emitted(result) &&
        (old(finished) ==> finished && result.None?)
      ensures (stop == KBlock ==> result.Some?) && (stop == KAtEnd ==> finished)
      ensures stop == KNone ==>
        result.None? && Shrunk(old(Work()), old(Slack()), less) && (!less ==> Quiet(|operators| - 2))
    {
      hide Ok, Logged, Left, Patience, Composition, Pipe;
      var i := |operators| - 1;
      ghost var slack := Slack();
      result := PullLast();
      less := Slack() < slack;
      if result.Some? && !operators[i].isFinished(states[i]) {
        return result, KBlock, less;
      }
      if operators[i].isFinished(states[i]) {
        finished := true;
        return result, KAtEnd, less;
      }
      stop := KNone;
    }

    /** One turn of the walk at operator `i`: the stop the caller is to return, or where the walk goes next. */
    method Turn(i: nat) returns (step: Step, stopReason: StopReason, result: Option<B>, blocked: bool, ghost less: bool)
      requires Valid() && i < |operators|
      modifies this`states, this`run, this`calls, this`curOperatorId, this`blockedOperatorId, this`finished
      ensures Steady() && run.outs[|operators| - 1] == delivered + Emitted(result) &&
        (old(finished) ==> finished && result.None?)
      ensures blocked ==> result.None? && stopReason == KBlock
      ensures stopReason == KBlock ==> blocked || result.Some?
      ensures stopReason == KAtEnd ==> finished || shouldStop
      ensures step == Blocked <==> stopReason != KNone
      ensures step != Blocked ==> result.None? && !blocked && Shrunk(old(Work()), old(Slack()), less)
      ensures step == Jump ==> i + 1 < |operators|
      ensures step == Jump || step == Restart ==> Work() < old(Work())
      ensures step == Walk && !less && old(Quiet(i)) ==> Quiet(i - 1)
      ensures step == Walk && i == |operators| - 1 ==> !old(operators[i].waiting(states[i]))
    {
      hide Ok, Logged, Left, Patience, Composition, Pipe, Quiet;
      step, stopReason, result, blocked, less := Walk, KNone, None, false, false;
      if shouldStop {
        return Blocked, KAtEnd, None, false, less;
      }
      curOperatorId := i;
      var waits := IsBlocked(i);
      if waits {
        blockedOperatorId := i;
        return Blocked, KBlock, None, true, less;
      }
      if i < |operators| - 1 {
        step, less := Feed(i);
        if step == Blocked {
          return Blocked, KBlock, None, true, less;
        }
      } else {
        result, stopReason, less := Drain();
        step := if stopReason != KNone then Blocked else Walk;
      }
    }

    /** One run of the pipeline: until a batch comes out of the last operator, the pipeline is finished, an operator
        is blocked, or OmniTask wants to stop. The walk goes from the last operator backwards; a batch handed on makes
        it jump to the consumer; an ended input makes it start over. */
    method RunInternal() returns (stopReason: StopReason, result: Option<B>, blocked: bool)
      requires Valid()
      modifies this`states, this`run, this`calls, this`curOperatorId, this`blockedOperatorId, this`finished
      ensures Steady() && run.outs[|operators| - 1] == delivered + Emitted(result)
      ensures blocked ==> result.None? && stopReason == KBlock
      ensures stopReason == KBlock ==> blocked || result.Some?
      ensures stopReason == KAtEnd ==> finished || shouldStop
      ensures stopReason != KNone && (old(finished) ==> finished && result.None?)
    {
      hide Ok, Logged, Left, Patience, Composition, Pipe, Steady, Quiet, Work, Slack;
      var numOperators := |operators|;
      QuietStarts();
      while true
        invariant Valid() && |states| == numOperators >= 1 && (old(finished) ==> finished)
        decreases Work(), Slack(), !operators[|operators| - 1].waiting(states[|operators| - 1])
      {
        var i := numOperators - 1;
        QuietStarts();
        ghost var work, slack, less := Work(), Slack(), false;
        ghost var waited := operators[i].waiting(states[i]);
        while i >= 0
          invariant Valid() && |states| == numOperators && -1 <= i < numOperators && (old(finished) ==> finished)
          invariant Shrunk(work, slack, less) && (!less ==> Quiet(i) && (i < numOperators - 1 ==> !waited))
          invariant !less && i == numOperators - 1 ==> operators[i].waiting(states[i]) == waited
          decreases Work(), Slack(), i + 1
        {
          var step;
          ghost var fewer;
          step, stopReason, result, blocked, fewer := Turn(i);
          if step == Blocked {
            return;
          }
          QuietStarts();
          less := less || fewer;
          if step == Jump {
            i := i + 1;
          } else if step == Restart {
            break;
          } else {
            i := i - 1;
          }
        }
        if !less {
          QuietEnds();
        }
      }
    }

    /** The next batch; none when the pipeline is blocked, stopped or finished. */
    method Next() returns (batch: Option<B>, stopReason: StopReason, blocked: bool)
      requires Valid()
      modifies this`states, this`run, this`calls, this`curOperatorId, this`blockedOperatorId, this`finished,
        this`delivered
      ensures Valid() && delivered == old(delivered) + Emitted(batch)
      ensures delivered <= Whole() && (finished ==> delivered == Whole())
      ensures batch.None? ==> blocked || finished || shouldStop
      ensures old(finished) ==> finished && batch.None?
    {
      hide Ok, Logged, Composition;
      var result;
      stopReason, result, blocked := RunInternal();
      OutputsOnTrack(operators, promises, run, |operators| - 1);
      delivered := delivered + Emitted(result);
      batch := if blocked then None else result;
    }
  }

  /** When a pipeline whose operators read all their input is finished, each operator behind the source has been given
      the whole output of its producer, batch by batch, and then told exactly once that no more comes. */
  lemma CallsOfFinished<S(!new), B(!new)>(d: OmniDriver<S, B>, i: nat)
    requires d.Valid() && d.finished && 0 < i < |d.operators|
    requires forall k | 0 < k < |d.operators| :: ReadsAll(d.operators[k], d.promises[k])
    ensures d.calls[i] == History(Composition(d.promises, i), true)
  {
    AllInputsEnded(d.operators, d.promises, d.run, i);
  }

  /** Where the walk goes next. */
  datatype Step = Jump | Restart | Walk | Blocked
}
