/** Memory accounting shared by threads, as interleaved atomic steps. */
module Accounting {
  import opened SqlValues

  const THRESHOLD: int := 1024 * 1024
  const UNLIMIT: int := -1

  /** Where a thread stands between two atomic steps. `reported` is on its way to the global amount, `cur` is the
      allocation that waits for the outcome. */
  datatype Phase =
    | Idle
    | ToAdd(reported: int, cur: nat)
    | ToCheck(amount: int, cur: nat)
    | ToUnblock(cur: nat)
    | ToTest(cur: nat)
    | ToBlock(cur: nat)
    | ToRefund(cur: nat)
    | ToThrow
    | ToSub(reclaimed: int)
    | ToLeave(reclaimed: int)
    | Left

  datatype Thread = Thread(untracked: int, phase: Phase) {
    /** Reported but not yet added. */
    function InFlight(): int {
      match phase
      case ToAdd(r, _) => r
      case ToSub(r) => r
      case ToLeave(r) => r
      case _ => 0
    }

    /** Asked for, neither granted nor refused. */
    function Pending(): int {
      match phase
      case ToAdd(_, c) => c
      case ToCheck(_, c) => c
      case ToUnblock(c) => c
      case ToTest(c) => c
      case ToBlock(c) => c
      case ToRefund(c) => c
      case _ => 0
    }

    function Untold(): int {
      untracked + InFlight() - Pending()
    }
  }

  datatype State = State(amount: int, limit: int, blocked: bool, threads: seq<Thread>, granted: int, freed: int,
      throws: nat)

  /** What happens next: a thread allocates, frees, ends, or takes the next atomic step of what it is doing; or a
      thread starts, or someone sets the limit. */
  datatype Event = Alloc(t: nat, size: nat) | Free(t: nat, size: nat) | Exit(t: nat) | Tick(t: nat) | Start
      | SetLimit(limit: int)

  predicate OverLimit(limit: int, amount: int) {
    limit != UNLIMIT && amount >= limit
  }

  function Abs(x: int): int {
    if x < 0 then -x else x
  }

  function With(s: State, t: nat, th: Thread): State
    requires t < |s.threads|
  {
    s.(threads := s.threads[t := th])
  }

  /** One atomic step of a thread inside AddMemory or SubMemory. */
  function TickOf(s: State, t: nat): Option<State>
    requires t < |s.threads|
  {
    var th := s.threads[t];
    match th.phase
    case ToAdd(r, c) => Some(With(s, t, th.(phase := ToCheck(s.amount + r, c))).(amount := s.amount + r))
    case ToCheck(a, c) => Some(With(s, t, th.(phase := if OverLimit(s.limit, a) then ToTest(c) else ToUnblock(c))))
    case ToUnblock(c) => Some(With(s, t, th.(phase := Idle)).(blocked := false, granted := s.granted + c))
    case ToTest(c) =>
      if s.blocked then Some(With(s, t, th.(phase := Idle)).(granted := s.granted + c))
      else Some(With(s, t, th.(phase := ToBlock(c))))
    case ToBlock(c) => Some(With(s, t, th.(phase := ToRefund(c))).(blocked := true))
    case ToRefund(c) => Some(With(s, t, th.(phase := ToThrow)).(amount := s.amount - c))
    case ToThrow => Some(With(s, t, th.(phase := Idle)).(throws := s.throws + 1))
    case ToSub(r) => Some(With(s, t, th.(phase := Idle)).(amount := s.amount + r))
    case ToLeave(r) => Some(With(s, t, th.(phase := Left)).(amount := s.amount + r))
    case _ => None
  }

  function Step(s: State, e: Event): Option<State> {
    match e
    case Start => Some(s.(threads := s.threads + [Thread(0, Idle)]))
    case SetLimit(l) => Some(s.(limit := l))
    case Tick(t) => if t < |s.threads| then TickOf(s, t) else None
    case Alloc(t, size) =>
      if t < |s.threads| && s.threads[t].phase.Idle? then
        var u := s.threads[t].untracked + size;
        if u > THRESHOLD then Some(With(s, t, Thread(0, ToAdd(u, size))))
        else Some(With(s, t, Thread(u, Idle)).(granted := s.granted + size))
      else None
    case Free(t, size) =>
      if t < |s.threads| && s.threads[t].phase.Idle? then
        var u := s.threads[t].untracked - size;
        Some(With(s, t, if Abs(u) > THRESHOLD then Thread(0, ToSub(u)) else Thread(u, Idle)).(freed := s.freed + size))
      else None
    case Exit(t) =>
      if t < |s.threads| && s.threads[t].phase.Idle? then Some(With(s, t, Thread(0, ToLeave(s.threads[t].untracked))))
      else None
  }

  function Run(s: State, events: seq<Event>): Option<State>
    decreases |events|
  {
    if events == [] then Some(s)
    else match Step(s, events[0]) case Some(u) => Run(u, events[1..]) case None => None
  }

  function Initial(limit: int): State {
    State(0, limit, false, [], 0, 0, 0)
  }

  // ---------- conservation ----------

  function UntoldSum(threads: seq<Thread>): int {
    if threads == [] then 0 else threads[0].Untold() + UntoldSum(threads[1..])
  }

  lemma {:induction false} UntoldUpdate(threads: seq<Thread>, t: nat, th: Thread)
    requires t < |threads|
    ensures UntoldSum(threads[t := th]) == UntoldSum(threads) - threads[t].Untold() + th.Untold()
  {
    if t == 0 {
      assert threads[0 := th][1..] == threads[1..];
    } else {
      assert threads[t := th][1..] == threads[1..][t - 1 := th];
      UntoldUpdate(threads[1..], t - 1, th);
    }
  }

  lemma {:induction false} UntoldAppend(threads: seq<Thread>, th: Thread)
    ensures UntoldSum(threads + [th]) == UntoldSum(threads) + th.Untold()
  {
    if threads == [] {
      assert threads + [th] == [th];
    } else {
      assert (threads + [th])[1..] == threads[1..] + [th];
      UntoldAppend(threads[1..], th);
    }
  }

  /** The global amount, what threads keep to themselves and what is on its way add up to what is in use and what is
      being asked for; and a thread never keeps more than the threshold to itself. */
  ghost predicate Inv(s: State) {
    && s.amount + UntoldSum(s.threads) == s.granted - s.freed
    && forall t | 0 <= t < |s.threads| ::
      Abs(s.threads[t].untracked) <= THRESHOLD && (s.threads[t].phase.Left? || s.threads[t].phase.ToLeave? ==>
      s.threads[t].untracked == 0)
  }

  /** A step of one thread that changes the books consistently. */
  lemma ThreadKeepsInv(s: State, t: nat, u: State)
    requires Inv(s) && t < |s.threads| == |u.threads| && u.threads == s.threads[t := u.threads[t]]
    requires (u.amount - s.amount) + (u.threads[t].Untold() - s.threads[t].Untold()) ==
      (u.granted - s.granted) - (u.freed - s.freed)
    requires Abs(u.threads[t].untracked) <= THRESHOLD && (u.threads[t].phase.Left? || u.threads[t].phase.ToLeave? ==>
      u.threads[t].untracked == 0)
    ensures Inv(u)
  {
    UntoldUpdate(s.threads, t, u.threads[t]);
  }

  /** A tick moves one thread, and what it moves stays in the books. */
  lemma TickMoves(s: State, t: nat)
    requires t < |s.threads| && TickOf(s, t).Some?
    ensures var u := TickOf(s, t).value;
      && u.threads == s.threads[t := u.threads[t]]
      && (u.amount - s.amount) + (u.threads[t].Untold() - s.threads[t].Untold()) ==
        (u.granted - s.granted) - (u.freed - s.freed)
      && u.threads[t].untracked == s.threads[t].untracked
      && !u.threads[t].phase.ToLeave? && (u.threads[t].phase.Left? ==> s.threads[t].phase.ToLeave?)
  {
  }

  lemma TickBalanced(s: State, t: nat)
    requires Inv(s) && t < |s.threads| && TickOf(s, t).Some?
    ensures Inv(TickOf(s, t).value)
  {
    hide UntoldSum, Inv, TickOf;
    InvAt(s, t);
    TickMoves(s, t);
    ThreadKeepsInv(s, t, TickOf(s, t).value);
  }

  lemma InvAt(s: State, t: nat)
    requires Inv(s) && t < |s.threads|
    ensures Abs(s.threads[t].untracked) <= THRESHOLD && (s.threads[t].phase.ToLeave? ==> s.threads[t].untracked == 0)
  {
  }

  lemma StepKeepsInv(s: State, e: Event)
    requires Inv(s) && Step(s, e).Some?
    ensures Inv(Step(s, e).value)
  {
    hide UntoldSum, TickOf, Inv;
    match e
    case Start => StartKeepsInv(s);
    case SetLimit(_) => LimitKeepsInv(s, Step(s, e).value);
    case Tick(t) => TickBalanced(s, t);
    case Alloc(t, size) => AllocKeepsInv(s, t, size);
    case Free(t, size) => FreeKeepsInv(s, t, size);
    case Exit(t) => ExitKeepsInv(s, t);
  }

  lemma AllocKeepsInv(s: State, t: nat, size: nat)
    requires Inv(s) && Step(s, Alloc(t, size)).Some?
    ensures Inv(Step(s, Alloc(t, size)).value)
  {
    hide UntoldSum, TickOf, Inv;
    InvAt(s, t);
    ThreadKeepsInv(s, t, Step(s, Alloc(t, size)).value);
  }

  lemma FreeKeepsInv(s: State, t: nat, size: nat)
    requires Inv(s) && Step(s, Free(t, size)).Some?
    ensures Inv(Step(s, Free(t, size)).value)
  {
    hide UntoldSum, TickOf, Inv;
    InvAt(s, t);
    ThreadKeepsInv(s, t, Step(s, Free(t, size)).value);
  }

  lemma ExitStep(s: State, t: nat)
    requires Step(s, Exit(t)).Some?
    ensures t < |s.threads| && s.threads[t].phase.Idle? && Step(s, Exit(t)) ==
      Some(With(s, t, Thread(0, ToLeave(s.threads[t].untracked))))
  {
    hide TickOf;
  }

  lemma ExitKeepsInv(s: State, t: nat)
    requires Inv(s) && Step(s, Exit(t)).Some?
    ensures Inv(Step(s, Exit(t)).value)
  {
    hide Step, Inv;
    ExitStep(s, t);
    LeaveKeepsInv(s, t);
  }

  lemma LeaveKeepsInv(s: State, t: nat)
    requires Inv(s) && t < |s.threads| && s.threads[t].phase.Idle?
    ensures Inv(With(s, t, Thread(0, ToLeave(s.threads[t].untracked))))
  {
    hide UntoldSum;
    UntoldUpdate(s.threads, t, Thread(0, ToLeave(s.threads[t].untracked)));
  }

  lemma StartKeepsInv(s: State)
    requires Inv(s)
    ensures Inv(s.(threads := s.threads + [Thread(0, Idle)]))
  {
    UntoldAppend(s.threads, Thread(0, Idle));
  }

  lemma LimitKeepsInv(s: State, u: State)
    requires Inv(s) && u == s.(limit := u.limit)
    ensures Inv(u)
  {
  }

  /** Conservation over every interleaving, also across refusals and thread exits. */
  lemma {:induction false} RunKeepsInv(s: State, events: seq<Event>)
    requires Inv(s) && Run(s, events).Some?
    ensures Inv(Run(s, events).value)
    decreases |events|
  {
    if events != [] {
      StepKeepsInv(s, events[0]);
      RunKeepsInv(Step(s, events[0]).value, events[1..]);
    }
  }

  /** Only ticks are left to do, or nothing. */
  ghost predicate AtRest(s: State) {
    forall t | 0 <= t < |s.threads| :: s.threads[t].phase.Idle? || s.threads[t].phase.Left?
  }

  function Running(threads: seq<Thread>): nat {
    if threads == [] then 0 else (if threads[0].phase.Left? then 0 else 1) + Running(threads[1..])
  }

  lemma {:induction false} RestBound(threads: seq<Thread>)
    requires forall t | 0 <= t < |threads| :: threads[t].phase.Idle? || threads[t].phase.Left?
    requires forall t | 0 <= t < |threads| ::
      Abs(threads[t].untracked) <= THRESHOLD && (threads[t].phase.Left? ==> threads[t].untracked == 0)
    ensures Abs(UntoldSum(threads)) <= Running(threads) * THRESHOLD
  {
    if threads != [] {
      RestBound(threads[1..]);
      assert threads[0].phase.Idle? || threads[0].phase.Left?;
      assert Running(threads) * THRESHOLD == (if threads[0].phase.Left? then 0 else THRESHOLD) +
        Running(threads[1..]) * THRESHOLD;
    }
  }

  /** After any run, when no call is under way, the global amount is off by at most one threshold per running thread. */
  lemma AmountAtRest(limit: int, events: seq<Event>)
    requires Run(Initial(limit), events).Some? && AtRest(Run(Initial(limit), events).value)
    ensures var s := Run(Initial(limit), events).value;
      Abs(s.amount - (s.granted - s.freed)) <= Running(s.threads) * THRESHOLD
  {
    RunKeepsInv(Initial(limit), events);
    RestBound(Run(Initial(limit), events).value.threads);
  }

  // ---------- refusals ----------

  /** The thread has found the limit exceeded and nobody blocked, and has not thrown yet. */
  predicate Refusing(p: Phase) {
    p.ToBlock? || p.ToRefund? || p.ToThrow?
  }

  /** The step of a report that found the amount under the limit: an episode of being over it ends here. */
  predicate Unblocks(s: State, e: Event) {
    e.Tick? && e.t < |s.threads| && s.threads[e.t].phase.ToUnblock?
  }

  predicate ThrowsNow(s: State, e: Event, t: nat) {
    e == Tick(t) && t < |s.threads| && s.threads[t].phase.ToThrow?
  }

  /** No report in the run found the amount under the limit. */
  predicate OneEpisode(s: State, events: seq<Event>)
    requires Run(s, events).Some?
    decreases |events|
  {
    events == [] || (!Unblocks(s, events[0]) && OneEpisode(Step(s, events[0]).value, events[1..]))
  }

  /** How often thread `t` throws in the run. */
  function ThrowsBy(s: State, events: seq<Event>, t: nat): nat
    requires Run(s, events).Some?
    decreases |events|
  {
    if events == [] then 0
    else (if ThrowsNow(s, events[0], t) then 1 else 0) + ThrowsBy(Step(s, events[0]).value, events[1..], t)
  }

  /** A thread that is about to refund or throw has set the flag, and nobody has cleared it. */
  predicate Flagged(s: State) {
    forall t | 0 <= t < |s.threads| :: s.threads[t].phase.ToRefund? || s.threads[t].phase.ToThrow? ==> s.blocked
  }

  /** How often thread `t` may still throw in this episode. */
  function Chances(s: State, t: nat): nat {
    if t < |s.threads| && Refusing(s.threads[t].phase) then 1 else if s.blocked then 0 else 1
  }

  lemma StepUsesChance(s: State, e: Event, t: nat)
    requires Flagged(s) && Step(s, e).Some? && !Unblocks(s, e)
    ensures Flagged(Step(s, e).value)
    ensures (if ThrowsNow(s, e, t) then 1 else 0) + Chances(Step(s, e).value, t) <= Chances(s, t)
  {
  }

  /** In any interleaving a thread throws at most once as long as no report finds the amount under the limit. */
  lemma {:induction false} OncePerThread(s: State, events: seq<Event>, t: nat)
    requires Run(s, events).Some? && OneEpisode(s, events) && Flagged(s)
    ensures ThrowsBy(s, events, t) <= Chances(s, t) <= 1
    decreases |events|
  {
    if events != [] {
      StepUsesChance(s, events[0], t);
      OncePerThread(Step(s, events[0]).value, events[1..], t);
    }
  }

  // ---------- refusals of all threads ----------

  function Refusals(threads: seq<Thread>): nat {
    if threads == [] then 0 else (if Refusing(threads[0].phase) then 1 else 0) + Refusals(threads[1..])
  }

  lemma {:induction false} RefusalsUpdate(threads: seq<Thread>, t: nat, th: Thread)
    requires t < |threads|
    ensures Refusals(threads[t := th]) + (if Refusing(threads[t].phase) then 1 else 0)
         == Refusals(threads) + if Refusing(th.phase) then 1 else 0
  {
    if t == 0 {
      assert threads[0 := th][1..] == threads[1..];
    } else {
      assert threads[t := th][1..] == threads[1..][t - 1 := th];
      RefusalsUpdate(threads[1..], t - 1, th);
    }
  }

  lemma {:induction false} RefusalsAppend(threads: seq<Thread>, th: Thread)
    ensures Refusals(threads + [th]) == Refusals(threads) + if Refusing(th.phase) then 1 else 0
  {
    if threads == [] {
      assert threads + [th] == [th];
    } else {
      assert (threads + [th])[1..] == threads[1..] + [th];
      RefusalsAppend(threads[1..], th);
    }
  }

  lemma {:induction false} NoRefusals(threads: seq<Thread>)
    ensures Refusals(threads) == 0 <==> forall t | 0 <= t < |threads| :: !Refusing(threads[t].phase)
  {
    if threads != [] {
      NoRefusals(threads[1..]);
      assert threads == [threads[0]] + threads[1..];
    }
  }

  lemma {:induction false} TwoRefusals(threads: seq<Thread>)
    ensures Refusals(threads) >= 2 <==>
      exists i, j :: 0 <= i < j < |threads| && Refusing(threads[i].phase) && Refusing(threads[j].phase)
  {
    if threads != [] {
      var rest := threads[1..];
      TwoRefusals(rest);
      NoRefusals(rest);
      assert forall t | 0 <= t < |rest| :: rest[t] == threads[t + 1];
      if Refusals(threads) >= 2 {
        if Refusals(rest) >= 2 {
          var i, j :| 0 <= i < j < |rest| && Refusing(rest[i].phase) && Refusing(rest[j].phase);
          assert Refusing(threads[i + 1].phase) && Refusing(threads[j + 1].phase);
        } else {
          var j :| 0 <= j < |rest| && Refusing(rest[j].phase);
          assert Refusing(threads[0].phase) && Refusing(threads[j + 1].phase);
        }
      }
      if i, j :| 0 <= i < j < |threads| && Refusing(threads[i].phase) && Refusing(threads[j].phase) {
        assert rest[j - 1] == threads[j];
        if i > 0 {
          assert rest[i - 1] == threads[i];
        }
      }
    }
  }

  /** Refusals decided, carried out or not. */
  function Decided(s: State): nat {
    s.throws + Refusals(s.threads)
  }

  /** The step of a report that tests the flag and finds it clear. */
  predicate FindsClear(s: State, e: Event) {
    e.Tick? && e.t < |s.threads| && s.threads[e.t].phase.ToTest? && !s.blocked
  }

  /** A refusal is decided where the flag is found clear, and nowhere else. */
  lemma StepDecides(s: State, e: Event)
    requires Step(s, e).Some?
    ensures Decided(Step(s, e).value) == Decided(s) + if FindsClear(s, e) then 1 else 0
  {
    hide Refusals;
    match e
    case Start => RefusalsAppend(s.threads, Thread(0, Idle));
    case SetLimit(_) =>
    case Tick(t) => RefusalsUpdate(s.threads, t, Step(s, e).value.threads[t]);
    case Alloc(t, size) => RefusalsUpdate(s.threads, t, Step(s, e).value.threads[t]);
    case Free(t, size) => RefusalsUpdate(s.threads, t, Step(s, e).value.threads[t]);
    case Exit(t) => RefusalsUpdate(s.threads, t, Step(s, e).value.threads[t]);
  }

  /** Within an episode the flag once set stays set, and nobody throws before it is. */
  lemma StepInEpisode(s: State, e: Event)
    requires Flagged(s) && Step(s, e).Some? && !Unblocks(s, e)
    ensures var u := Step(s, e).value;
      Flagged(u) && s.throws <= u.throws && (s.blocked ==> u.blocked) && (!s.blocked ==> u.throws == s.throws) &&
        (FindsClear(s, e) ==> !u.blocked)
  {
  }

  /** Two threads have both found the flag clear and neither has set it yet. */
  predicate Race(s: State) {
    exists i, j :: 0 <= i < j < |s.threads| && s.threads[i].phase.ToBlock? && s.threads[j].phase.ToBlock?
  }

  predicate RaceFree(s: State, events: seq<Event>)
    requires Run(s, events).Some?
    decreases |events|
  {
    !Race(s) && (events == [] || RaceFree(Step(s, events[0]).value, events[1..]))
  }

  /** While the flag is clear, every thread that refuses has yet to set it. */
  lemma ClearRefusals(s: State)
    requires Flagged(s) && !s.blocked
    ensures Refusals(s.threads) <= 1 <==> !Race(s)
  {
    TwoRefusals(s.threads);
    assert forall t | 0 <= t < |s.threads| :: Refusing(s.threads[t].phase) <==> s.threads[t].phase.ToBlock?;
  }

  /** Without a race the refusals decided stay within one more than the exceptions thrown while the flag was clear. */
  lemma {:induction false} RaceFreeBound(s: State, events: seq<Event>, bound: nat)
    requires Run(s, events).Some? && OneEpisode(s, events) && RaceFree(s, events) && Flagged(s)
    requires Decided(s) <= bound && (!s.blocked ==> s.throws + 1 <= bound)
    ensures Decided(Run(s, events).value) <= bound
    decreases |events|
  {
    hide Step, Flagged, Race, Unblocks, Refusals;
    if events != [] {
      var u := Step(s, events[0]).value;
      StepDecides(s, events[0]);
      StepInEpisode(s, events[0]);
      if !u.blocked {
        ClearRefusals(u);
      }
      RaceFreeBound(u, events[1..], bound);
    }
  }

  /** With a race two more are decided. */
  lemma {:induction false} RaceBound(s: State, events: seq<Event>)
    requires Run(s, events).Some? && OneEpisode(s, events) && Flagged(s)
    ensures Decided(s) <= Decided(Run(s, events).value)
    ensures RaceFree(s, events) || s.throws + 2 <= Decided(Run(s, events).value)
    decreases |events|
  {
    hide Step, Flagged, Race, Unblocks, Refusals;
    if Race(s) {
      RaceRefusals(s);
    }
    if events != [] {
      StepDecides(s, events[0]);
      StepInEpisode(s, events[0]);
      RaceBound(Step(s, events[0]).value, events[1..]);
    }
  }

  lemma RaceRefusals(s: State)
    requires Race(s)
    ensures Refusals(s.threads) >= 2
  {
    TwoRefusals(s.threads);
  }

  /** In an episode that starts with the flag clear and ends with nobody refusing, at most one exception is thrown
      exactly if no two threads are between testing and setting the flag at once. */
  lemma OneThrowExactly(s: State, events: seq<Event>)
    requires Run(s, events).Some? && OneEpisode(s, events) && !s.blocked
    requires Refusals(s.threads) == 0 == Refusals(Run(s, events).value.threads)
    ensures Run(s, events).value.throws <= s.throws + 1 <==> RaceFree(s, events)
  {
    hide Run, Race, Refusals;
    NoRefusals(s.threads);
    RaceBound(s, events);
    if RaceFree(s, events) {
      RaceFreeBound(s, events, s.throws + 1);
    }
  }

  // ---------- serialised reports ----------

  predicate Busy(th: Thread) {
    !th.phase.Idle? && !th.phase.Left?
  }

  /** At most one thread is inside a call. */
  predicate OneAtATime(s: State) {
    forall i, j | 0 <= i < j < |s.threads| :: !(Busy(s.threads[i]) && Busy(s.threads[j]))
  }

  predicate Serial(s: State, events: seq<Event>)
    requires Run(s, events).Some?
    decreases |events|
  {
    OneAtATime(s) && (events == [] || Serial(Step(s, events[0]).value, events[1..]))
  }

  lemma {:induction false} SerialRaceFree(s: State, events: seq<Event>)
    requires Run(s, events).Some? && Serial(s, events)
    ensures RaceFree(s, events)
    decreases |events|
  {
    hide Step;
    if events != [] {
      SerialRaceFree(Step(s, events[0]).value, events[1..]);
    }
  }

  /** How often a serialised run may still throw in this episode. */
  function ChancesOfAll(s: State): nat {
    if exists t | 0 <= t < |s.threads| :: Refusing(s.threads[t].phase) then 1 else if s.blocked then 0 else 1
  }

  /** When reports are serialised, at most one exception is thrown as long as none finds the amount under the limit. */
  lemma OncePerEpisode(s: State, events: seq<Event>)
    requires Run(s, events).Some? && OneEpisode(s, events) && Serial(s, events) && Flagged(s)
    ensures Run(s, events).value.throws <= s.throws + ChancesOfAll(s) <= s.throws + 1
  {
    hide Run, Step, Flagged;
    SerialRaceFree(s, events);
    TwoRefusals(s.threads);
    NoRefusals(s.threads);
    RaceFreeBound(s, events, s.throws + ChancesOfAll(s));
  }

  const M: nat := 2 * 1024 * 1024

  /** Two threads over a limit of one byte. */
  function Two(p: Phase, q: Phase, amount: int, blocked: bool, throws: nat): State {
    State(amount, 1, blocked, [Thread(0, p), Thread(0, q)], 0, 0, throws)
  }

  lemma FirstMoves(p: Phase, q: Phase, p': Phase, s: State)
    requires s.threads == [Thread(0, p), Thread(0, q)]
    ensures With(s, 0, Thread(0, p')).threads == [Thread(0, p'), Thread(0, q)]
  {
  }

  lemma SecondMoves(p: Phase, q: Phase, q': Phase, s: State)
    requires s.threads == [Thread(0, p), Thread(0, q)]
    ensures With(s, 1, Thread(0, q')).threads == [Thread(0, p), Thread(0, q')]
  {
  }

  /** Both have found the flag clear: both set it, refund and throw. */
  lemma BothThrow() returns (events: seq<Event>)
    ensures var s, u := Two(ToBlock(M), ToBlock(M), 2 * M, false, 0), Two(Idle, Idle, 0, true, 2);
      Run(s, events) == Some(u) && OneEpisode(s, events)
  {
    var b3, c1, c2 := Two(ToBlock(M), ToBlock(M), 2 * M, false, 0), Two(ToRefund(M), ToBlock(M), 2 * M, true, 0),
      Two(ToThrow, ToBlock(M), M, true, 0);
    var c3, d1 := Two(Idle, ToBlock(M), M, true, 1), Two(Idle, ToRefund(M), M, true, 1);
    var d2, d3 := Two(Idle, ToThrow, 0, true, 1), Two(Idle, Idle, 0, true, 2);
    SecondMoves(Idle, ToThrow, Idle, d2);
    SecondMoves(Idle, ToRefund(M), ToThrow, d1);
    SecondMoves(Idle, ToBlock(M), ToRefund(M), c3);
    FirstMoves(ToThrow, ToBlock(M), Idle, c2);
    FirstMoves(ToRefund(M), ToBlock(M), ToThrow, c1);
    FirstMoves(ToBlock(M), ToBlock(M), ToRefund(M), b3);
    events := Before(d2, Tick(1), d3, [], d3);
    events := Before(d1, Tick(1), d2, events, d3);
    events := Before(c3, Tick(1), d1, events, d3);
    events := Before(c2, Tick(0), c3, events, d3);
    events := Before(c1, Tick(0), c2, events, d3);
    events := Before(b3, Tick(0), c1, events, d3);
  }

  /** Both test before either sets the flag. */
  lemma BothTest(rest: seq<Event>, end: State) returns (events: seq<Event>)
    requires var s := Two(ToBlock(M), ToBlock(M), 2 * M, false, 0); Run(s, rest) == Some(end) && OneEpisode(s, rest)
    ensures var s := Two(ToAdd(M, M), ToAdd(M, M), 0, false, 0); Run(s, events) == Some(end) && OneEpisode(s, events)
  {
    hide OneEpisode, Run;
    var b3, b2 := Two(ToBlock(M), ToBlock(M), 2 * M, false, 0), Two(ToBlock(M), ToTest(M), 2 * M, false, 0);
    var b1, a3 := Two(ToBlock(M), ToCheck(2 * M, M), 2 * M, false, 0), Two(ToBlock(M), ToAdd(M, M), M, false, 0);
    var a2, a1 := Two(ToTest(M), ToAdd(M, M), M, false, 0), Two(ToCheck(M, M), ToAdd(M, M), M, false, 0);
    var s4 := Two(ToAdd(M, M), ToAdd(M, M), 0, false, 0);
    SecondMoves(ToBlock(M), ToTest(M), ToBlock(M), b2);
    SecondMoves(ToBlock(M), ToCheck(2 * M, M), ToTest(M), b1);
    SecondMoves(ToBlock(M), ToAdd(M, M), ToCheck(2 * M, M), a3);
    FirstMoves(ToTest(M), ToAdd(M, M), ToBlock(M), a2);
    FirstMoves(ToCheck(M, M), ToAdd(M, M), ToTest(M), a1);
    FirstMoves(ToAdd(M, M), ToAdd(M, M), ToCheck(M, M), s4);
    events := Before(b2, Tick(1), b3, rest, end);
    events := Before(b1, Tick(1), b2, events, end);
    events := Before(a3, Tick(1), b1, events, end);
    events := Before(a2, Tick(0), a3, events, end);
    events := Before(a1, Tick(0), a2, events, end);
    events := Before(s4, Tick(0), a1, events, end);
  }

  /** Both ask for more than they may keep to themselves. */
  lemma BothAsk(rest: seq<Event>, end: State) returns (events: seq<Event>)
    requires var s := Two(ToAdd(M, M), ToAdd(M, M), 0, false, 0); Run(s, rest) == Some(end) && OneEpisode(s, rest)
    ensures var s := Two(Idle, Idle, 0, false, 0); Run(s, events) == Some(end) && OneEpisode(s, events)
  {
    hide OneEpisode, Run;
    var s4, s3, s2 := Two(ToAdd(M, M), ToAdd(M, M), 0, false, 0), Two(ToAdd(M, M), Idle, 0, false, 0),
      Two(Idle, Idle, 0, false, 0);
    SecondMoves(ToAdd(M, M), Idle, ToAdd(M, M), s3);
    FirstMoves(Idle, Idle, ToAdd(M, M), s2);
    events := Before(s3, Alloc(1, M), s4, rest, end);
    events := Before(s2, Alloc(0, M), s3, events, end);
  }

  /** Two threads that are not serialised may both test the flag before either sets it: two exceptions in one
      episode. */
  lemma RaceThrowsTwice()
    ensures exists events, s :: Run(Initial(1), events) == Some(s) && OneEpisode(Initial(1), events) && s.throws == 2
  {
    var end := Two(Idle, Idle, 0, true, 2);
    var r := BothThrow();
    r := BothTest(r, end);
    r := BothAsk(r, end);
    var s1 := Initial(1).(threads := [Thread(0, Idle)]);
    assert s1.threads + [Thread(0, Idle)] == [Thread(0, Idle), Thread(0, Idle)] &&
      Initial(1).threads + [Thread(0, Idle)] == s1.threads;
    r := Before(s1, Start, Two(Idle, Idle, 0, false, 0), r, end);
    r := Before(Initial(1), Start, s1, r, end);
    assert Run(Initial(1), r) == Some(end) && OneEpisode(Initial(1), r);
  }

  /** One step in front of a run. */
  lemma Before(s: State, e: Event, u: State, rest: seq<Event>, end: State) returns (events: seq<Event>)
    requires Step(s, e) == Some(u) && !Unblocks(s, e) && Run(u, rest) == Some(end) && OneEpisode(u, rest)
    ensures Run(s, events) == Some(end) && OneEpisode(s, events)
  {
    events := [e] + rest;
    assert events[1..] == rest;
  }
}
