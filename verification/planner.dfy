/** The planner: a node's first source stays in its pipeline, every other source starts a new one. */
module Planner {
  import opened SqlValues

  datatype Kind = Join | Union | Other

  datatype Plan = Node(id: nat, kind: Kind, sources: seq<Plan>)

  /** A node's own operator, or the operator that hands source `source` of a join or union to it. */
  datatype OpRef = Main(id: nat) | Build(id: nat, source: nat)

  datatype DriverPlan = DriverPlan(operators: seq<OpRef>, inputDriver: bool, outputDriver: bool)

  /** Joins have two sources. */
  predicate Binary(p: Plan) {
    (p.kind == Join ==> |p.sources| == 2) && forall i | 0 <= i < |p.sources| :: Binary(p.sources[i])
  }

  // ---------- what planning makes ----------

  /** Does source `i` of the node get an operator that hands it over? */
  predicate Handed(p: Plan, i: nat) {
    (p.kind == Join && i == 1) || (p.kind == Union && 1 <= i)
  }

  /** The operators from the leaf at the end of the first sources up to the node. */
  function Chain(p: Plan): (ops: seq<OpRef>)
    ensures |ops| > 0 && ops[|ops| - 1] == Main(p.id)
  {
    (if p.sources == [] then [] else Chain(p.sources[0])) + [Main(p.id)]
  }

  /** The own pipeline of source `i`, which hands over to the node if it must. */
  function Feeder(p: Plan, i: nat): (ops: seq<OpRef>)
    requires i < |p.sources|
  {
    Chain(p.sources[i]) + if Handed(p, i) then [Build(p.id, i)] else []
  }

  /** The pipelines of source `i` of the node, and of the sources after it. */
  function Builders(p: Plan, i: nat): seq<seq<OpRef>>
    requires 1 <= i
    decreases p, 0, |p.sources| - i
  {
    if i >= |p.sources| then []
    else
      [Feeder(p, i)] + Extra(p.sources[i]) + Builders(p, i + 1)
  }

  /** The pipelines planning adds besides the node's own. */
  function Extra(p: Plan): seq<seq<OpRef>>
    decreases p, 1
  {
    if p.sources == [] then [] else Extra(p.sources[0]) + Builders(p, 1)
  }

  function Pipelines(p: Plan): seq<seq<OpRef>> {
    [Chain(p)] + Extra(p)
  }

  function Finished(pipes: seq<seq<OpRef>>): seq<DriverPlan> {
    seq(|pipes|, i requires 0 <= i < |pipes| => DriverPlan(pipes[i], true, false))
  }

  lemma FinishedAppend(a: seq<seq<OpRef>>, b: seq<seq<OpRef>>)
    ensures Finished(a + b) == Finished(a) + Finished(b)
  {
  }

  lemma FinishedOne(pipe: seq<OpRef>)
    ensures Finished([pipe]) == [DriverPlan(pipe, true, false)]
  {
  }

  // ---------- planning ----------

  /** The pipelines of source `i` as they are when the source has been planned, and once it hands over. */
  function Planned(p: Plan, i: nat): seq<DriverPlan>
    requires i < |p.sources|
  {
    if i == 0 then [] else Finished(Pipelines(p.sources[i]))
  }

  function Complete(p: Plan, i: nat): seq<DriverPlan>
    requires i < |p.sources|
  {
    if i == 0 then []
    else Finished([Feeder(p, i)] + Extra(p.sources[i]))
  }

  /** The first driver of a list gets one more operator. */
  function Push(drivers: seq<DriverPlan>, c: nat, op: OpRef): seq<DriverPlan>
    requires c < |drivers|
  {
    drivers[c := drivers[c].(operators := drivers[c].operators + [op])]
  }

  lemma PushHands(p: Plan, i: nat)
    requires 1 <= i < |p.sources| && Handed(p, i)
    ensures Push(Planned(p, i), 0, Build(p.id, i)) == Complete(p, i)
  {
  }

  lemma BuildersUnfold(p: Plan, i: nat)
    requires 1 <= i < |p.sources|
    ensures Finished(Builders(p, i)) == Complete(p, i) + Finished(Builders(p, i + 1))
  {
    var first := [Feeder(p, i)] + Extra(p.sources[i]);
    assert Builders(p, i) == first + Builders(p, i + 1);
  }

  /** The pipelines of the first `i` sources, in the order they are inserted. */
  function Inserted(p: Plan, i: nat): seq<DriverPlan>
    requires i <= |p.sources|
  {
    if i == 0 then [] else Inserted(p, i - 1) + Complete(p, i - 1)
  }

  lemma {:induction false} InsertedAll(p: Plan, i: nat)
    requires 1 <= i <= |p.sources|
    ensures Inserted(p, i) + Finished(Builders(p, i)) == Finished(Builders(p, 1))
  {
    hide Complete, Builders, Finished;
    if i == 1 {
      NothingInserted(p);
    } else {
      InsertedAll(p, i - 1);
      BuildersUnfold(p, i - 1);
      var front, own, rest := Inserted(p, i - 1), Complete(p, i - 1), Finished(Builders(p, i));
      assert (front + own) + rest == front + (own + rest);
    }
  }

  lemma NothingInserted(p: Plan)
    requires |p.sources| >= 1
    ensures Inserted(p, 1) == []
  {
    assert Inserted(p, 0) == [];
  }

  function Own(p: Plan): DriverPlan {
    DriverPlan(Chain(p), true, false)
  }

  /** The pipelines the first source has left behind the node's own. */
  function Inherited(p: Plan): seq<DriverPlan> {
    if p.sources == [] then [] else Finished(Extra(p.sources[0]))
  }

  lemma PipelinesWhole(p: Plan)
    ensures [Own(p)] + Inherited(p) + Inserted(p, |p.sources|) == Finished(Pipelines(p))
  {
    if p.sources != [] {
      var n := |p.sources|;
      InsertedAll(p, n);
      assert Builders(p, n) == [];
      FinishedAppend(Extra(p.sources[0]), Builders(p, 1));
    }
    FinishedAppend([Chain(p)], Extra(p));
  }

  /** What the first source leaves is the node's own pipeline but for its last operator, and what it inherits. */
  lemma FirstSource(p: Plan)
    requires p.sources != []
    ensures Finished(Pipelines(p.sources[0])) == [Own(p).(operators := Chain(p)[..|Chain(p)| - 1])] + Inherited(p)
  {
    hide Extra, Builders, Finished;
    FinishedOne(Chain(p.sources[0]));
    assert Chain(p)[..|Chain(p)| - 1] == Chain(p.sources[0]);
    FinishedAppend([Chain(p.sources[0])], Extra(p.sources[0]));
  }

  lemma NoSource(p: Plan)
    requires p.sources == []
    ensures [Own(p).(operators := Chain(p)[..|Chain(p)| - 1])] + Inherited(p) == [DriverPlan([], true, false)]
  {
  }

  /** Plan the sources: the first into driver `c`, the others into lists of their own. */
  method PlanSources(p: Plan, c: nat, drivers: seq<DriverPlan>)
                     returns (out: seq<DriverPlan>, builders: seq<seq<DriverPlan>>)
    requires Binary(p) && c + 1 == |drivers| && drivers[c] == DriverPlan([], false, false)
    ensures |builders| == |p.sources| && forall k | 0 <= k < |builders| :: builders[k] == Planned(p, k)
    ensures out == drivers[..c] + [Own(p).(operators := Chain(p)[..|Chain(p)| - 1])] + Inherited(p)
    decreases p, 0
  {
    hide Chain, Extra, Builders, Finished, Pipelines, Own, Inherited;
    out := drivers;
    builders := seq(|p.sources|, i => []);
    if |p.sources| == 0 {
      out := out[|out| - 1 := out[|out| - 1].(inputDriver := true)];
      NoSource(p);
      assert out == drivers[..c] + [DriverPlan([], true, false)];
    } else {
      for i := 0 to |p.sources|
        invariant |builders| == |p.sources| && builders[0] == [] && forall k | 0 <= k < i ::
          builders[k] == Planned(p, k)
        invariant out == if i == 0 then drivers else drivers[..c] + Finished(Pipelines(p.sources[0]))
      {
        if i == 0 {
          out := PlanDetail(p.sources[0], Some(c), out);
        } else {
          var planned := PlanDetail(p.sources[i], None, []);
          builders := builders[i := planned];
        }
      }
      FirstSource(p);
    }
  }

  lemma Unhanded(p: Plan, i: nat)
    requires i < |p.sources| && !Handed(p, i)
    ensures Complete(p, i) == Planned(p, i)
  {
    assert Chain(p.sources[i]) + [] == Chain(p.sources[i]);
  }

  /** A join's second source, and each source of a union but the first, gets an operator that feeds the node. */
  method HandOver(p: Plan, planned: seq<seq<DriverPlan>>) returns (builders: seq<seq<DriverPlan>>)
    requires Binary(p) && |planned| == |p.sources| && forall k | 0 <= k < |planned| :: planned[k] == Planned(p, k)
    ensures |builders| == |p.sources| && forall k | 0 <= k < |builders| :: builders[k] == Complete(p, k)
  {
    builders := planned;
    if p.kind == Join {
      builders := builders[1 := Push(builders[1], 0, Build(p.id, 1))];
      PushHands(p, 1);
    } else if p.kind == Union && 0 < |p.sources| {
      for i := 1 to |p.sources|
        invariant |builders| == |p.sources|
        invariant forall k | 0 <= k < |builders| :: builders[k] == if k < i then Complete(p, k) else Planned(p, k)
      {
        PushHands(p, i);
        builders := builders[i := Push(builders[i], 0, Build(p.id, i))];
      }
    }
    forall k | 0 <= k < |builders| && !Handed(p, k) ensures builders[k] == Complete(p, k) {
      Unhanded(p, k);
    }
  }

  /** Plan a subtree into `drivers`: into a new driver, or into driver `current`, which is then the last one. */
  method PlanDetail(p: Plan, current: Option<nat>, drivers: seq<DriverPlan>) returns (out: seq<DriverPlan>)
    requires Binary(p)
    requires current.Some? ==> current.value + 1 == |drivers| && drivers[current.value] == DriverPlan([], false, false)
    ensures out == (if current.Some? then drivers[..current.value] else drivers) + Finished(Pipelines(p))
    decreases p, 1
  {
    hide Finished, Builders, Extra, Pipelines, Planned, Complete, Chain, Inherited, Binary;
    var c := if current.Some? then current.value else |drivers|;
    out := if current.Some? then drivers else drivers + [DriverPlan([], false, false)];
    ghost var before := out[..c];
    var builders;
    out, builders := PlanSources(p, c, out);
    builders := HandOver(p, builders);
    out := Push(out, c, Main(p.id));
    assert out[c] == Own(p);
    assert out == before + [Own(p)] + Inherited(p);
    for i := 0 to |builders|
      invariant out == before + [Own(p)] + Inherited(p) + Inserted(p, i)
    {
      out := out + builders[i];
    }
    PipelinesWhole(p);
  }

  /** The whole plan; the root's driver yields the output. */
  method MakePlan(p: Plan) returns (drivers: seq<DriverPlan>)
    requires Binary(p)
    ensures drivers == Finished(Pipelines(p))[0 := DriverPlan(Chain(p), true, true)]
  {
    drivers := PlanDetail(p, None, []);
    assert drivers == Finished(Pipelines(p));
    drivers := drivers[0 := drivers[0].(outputDriver := true)];
  }

  // ---------- how many pipelines ----------

  /** One less than the number of sources, summed over the node's inner nodes from source `i` on. */
  function SurplusFrom(p: Plan, i: nat): nat
    decreases p, 0, |p.sources| - i
  {
    if i >= |p.sources| then 0 else Surplus(p.sources[i]) + SurplusFrom(p, i + 1)
  }

  function Surplus(p: Plan): nat
    decreases p, 1
  {
    (if p.sources == [] then 0 else |p.sources| - 1) + SurplusFrom(p, 0)
  }

  /** Planning makes one pipeline, and one more for each source beyond a node's first. */
  lemma {:induction false} PipelineCount(p: Plan)
    ensures |Pipelines(p)| == 1 + Surplus(p)
    decreases p, 1
  {
    if p.sources != [] {
      PipelineCount(p.sources[0]);
      BuilderCount(p, 1);
    }
  }

  lemma {:induction false} BuilderCount(p: Plan, i: nat)
    requires 1 <= i <= |p.sources|
    ensures |Builders(p, i)| == |p.sources| - i + SurplusFrom(p, i)
    decreases p, 0, |p.sources| - i
  {
    if i < |p.sources| {
      PipelineCount(p.sources[i]);
      BuilderCount(p, i + 1);
    }
  }

  // ---------- what is in them ----------

  /** The operators a plan needs: every node's own, and one per handed source. */
  function OpsFrom(p: Plan, i: nat): multiset<OpRef>
    decreases p, 0, |p.sources| - i
  {
    if i >= |p.sources| then multiset{}
    else (if Handed(p, i) then multiset{Build(p.id, i)} else multiset{}) + Ops(p.sources[i]) + OpsFrom(p, i + 1)
  }

  function Ops(p: Plan): multiset<OpRef>
    decreases p, 1
  {
    multiset{Main(p.id)} + OpsFrom(p, 0)
  }

  function All(pipes: seq<seq<OpRef>>): multiset<OpRef> {
    if pipes == [] then multiset{} else multiset(pipes[0]) + All(pipes[1..])
  }

  lemma {:induction false} AllAppend(a: seq<seq<OpRef>>, b: seq<seq<OpRef>>)
    ensures All(a + b) == All(a) + All(b)
    decreases |a|
  {
    if a == [] {
      assert a + b == b;
    } else {
      assert (a + b)[1..] == a[1..] + b;
      AllAppend(a[1..], b);
    }
  }

  /** No operator is lost and none is planned twice. */
  lemma {:induction false} PipelinesHoldPlan(p: Plan)
    ensures All(Pipelines(p)) == Ops(p)
    decreases p, 1
  {
    assert Pipelines(p)[1..] == Extra(p);
    if p.sources == [] {
      assert Chain(p) == [Main(p.id)];
    } else {
      var q := p.sources[0];
      PipelinesHoldPlan(q);
      BuildersHoldPlan(p, 1);
      assert Pipelines(q)[1..] == Extra(q);
      AllAppend(Extra(q), Builders(p, 1));
      assert multiset(Chain(q) + [Main(p.id)]) == multiset(Chain(q)) + multiset{Main(p.id)};
    }
  }

  lemma {:induction false} BuildersHoldPlan(p: Plan, i: nat)
    requires 1 <= i <= |p.sources|
    ensures All(Builders(p, i)) == OpsFrom(p, i)
    decreases p, 0, |p.sources| - i
  {
    hide Feeder, Chain, Extra, All, Ops;
    if i < |p.sources| {
      var q := p.sources[i];
      PipelinesHoldPlan(q);
      BuildersHoldPlan(p, i + 1);
      AllCons(Chain(q), Extra(q));
      AllCons(Feeder(p, i), Extra(q));
      AllAppend([Feeder(p, i)] + Extra(q), Builders(p, i + 1));
      FeederHolds(p, i);
      Regroup(multiset(Chain(q)), if Handed(p, i) then multiset{Build(p.id, i)} else multiset{}, All(Extra(q)),
        OpsFrom(p, i + 1));
    } else {
      NoneHold();
    }
  }

  lemma NoneHold()
    ensures All([]) == multiset{}
  {
  }

  lemma Regroup(chain: multiset<OpRef>, hand: multiset<OpRef>, extra: multiset<OpRef>, rest: multiset<OpRef>)
    ensures (chain + hand) + extra + rest == hand + (chain + extra) + rest
  {
  }

  lemma AllCons(x: seq<OpRef>, rest: seq<seq<OpRef>>)
    ensures All([x] + rest) == multiset(x) + All(rest)
  {
    assert ([x] + rest)[1..] == rest;
  }

  lemma FeederHolds(p: Plan, i: nat)
    requires i < |p.sources|
    ensures multiset(Feeder(p, i)) == multiset(Chain(p.sources[i])) + if Handed(p, i)
      then multiset{Build(p.id, i)} else multiset{}
    ensures |Feeder(p, i)| > 0 && Feeder(p, i)[|Feeder(p, i)| - 1] == if Handed(p, i) then Build(p.id, i)
      else Main(p.sources[i].id)
  {
  }

  predicate IsLeaf(p: Plan, id: nat)
    decreases p
  {
    (p.sources == [] && p.id == id) || exists i | 0 <= i < |p.sources| :: IsLeaf(p.sources[i], id)
  }

  ghost predicate StartsAtLeaf(p: Plan, pipe: seq<OpRef>) {
    |pipe| > 0 && pipe[0].Main? && IsLeaf(p, pipe[0].id)
  }

  ghost predicate AllStartAtLeaves(p: Plan, pipes: seq<seq<OpRef>>) {
    forall a | 0 <= a < |pipes| :: StartsAtLeaf(p, pipes[a])
  }

  lemma AllStartAppend(p: Plan, a: seq<seq<OpRef>>, b: seq<seq<OpRef>>)
    requires AllStartAtLeaves(p, a) && AllStartAtLeaves(p, b)
    ensures AllStartAtLeaves(p, a + b)
  {
    hide StartsAtLeaf;
  }

  /** The leaves of a source are leaves of the node. */
  lemma AllStartBelow(p: Plan, i: nat, pipes: seq<seq<OpRef>>)
    requires i < |p.sources| && AllStartAtLeaves(p.sources[i], pipes)
    ensures AllStartAtLeaves(p, pipes)
  {
    forall a | 0 <= a < |pipes| ensures StartsAtLeaf(p, pipes[a]) {
      assert StartsAtLeaf(p.sources[i], pipes[a]);
    }
  }

  /** One more operator at the end does not change where a pipeline starts. */
  lemma FirstStarts(p: Plan, i: nat, more: seq<OpRef>)
    requires i < |p.sources| && AllStartAtLeaves(p, Pipelines(p.sources[i]))
    ensures StartsAtLeaf(p, Chain(p.sources[i]) + more) && AllStartAtLeaves(p, Extra(p.sources[i]))
  {
    hide StartsAtLeaf;
    var pipes := Pipelines(p.sources[i]);
    assert pipes[0] == Chain(p.sources[i]) && pipes[1..] == Extra(p.sources[i]);
    StartsPrefix(p, Chain(p.sources[i]), more);
    forall a | 0 <= a < |Extra(p.sources[i])| ensures StartsAtLeaf(p, Extra(p.sources[i])[a]) {
      assert Extra(p.sources[i])[a] == pipes[a + 1];
    }
  }

  lemma StartsPrefix(p: Plan, pipe: seq<OpRef>, more: seq<OpRef>)
    requires StartsAtLeaf(p, pipe)
    ensures StartsAtLeaf(p, pipe + more)
  {
  }

  /** Every pipeline is non-empty and starts with a leaf of the plan. */
  lemma {:induction false} PipelinesStartAtLeaves(p: Plan)
    ensures AllStartAtLeaves(p, Pipelines(p))
    decreases p, 1
  {
    if p.sources != [] {
      hide StartsAtLeaf, Builders;
      PipelinesStartAtLeaves(p.sources[0]);
      BuildersStartAtLeaves(p, 1);
      AllStartBelow(p, 0, Pipelines(p.sources[0]));
      FirstStarts(p, 0, [Main(p.id)]);
      AllStartAppend(p, Extra(p.sources[0]), Builders(p, 1));
      AllStartAppend(p, [Chain(p)], Extra(p));
    }
  }

  lemma {:induction false} BuildersStartAtLeaves(p: Plan, i: nat)
    requires 1 <= i <= |p.sources|
    ensures AllStartAtLeaves(p, Builders(p, i))
    decreases p, 0, |p.sources| - i
  {
    hide StartsAtLeaf, Extra, Chain;
    if i < |p.sources| {
      var q := p.sources[i];
      PipelinesStartAtLeaves(q);
      BuildersStartAtLeaves(p, i + 1);
      AllStartBelow(p, i, Pipelines(q));
      FirstStarts(p, i, if Handed(p, i) then [Build(p.id, i)] else []);
      AllStartAppend(p, [Feeder(p, i)], Extra(q));
      AllStartAppend(p, [Feeder(p, i)] + Extra(q), Builders(p, i + 1));
    }
  }

  // ---------- in which order ----------

  /** The operator a pipeline feeds is among `before` or in an earlier pipeline of the list. */
  predicate Ordered(before: multiset<OpRef>, pipes: seq<seq<OpRef>>)
    decreases |pipes|
  {
    pipes == [] ||
    (var last := |pipes[0]| - 1;
     && (0 <= last && pipes[0][last].Build? ==> Main(pipes[0][last].id) in before)
     && Ordered(before + multiset(pipes[0]), pipes[1..]))
  }

  lemma {:induction false} OrderedAppend(before: multiset<OpRef>, a: seq<seq<OpRef>>, b: seq<seq<OpRef>>)
    requires Ordered(before, a) && Ordered(before + All(a), b)
    ensures Ordered(before, a + b)
    decreases |a|
  {
    if a == [] {
      assert a + b == b && before + multiset{} == before;
    } else {
      assert (a + b)[1..] == a[1..] + b;
      assert before + multiset(a[0]) + All(a[1..]) == before + All(a);
      OrderedAppend(before + multiset(a[0]), a[1..], b);
    }
  }

  lemma {:induction false} OrderedMore(before: multiset<OpRef>, more: multiset<OpRef>, pipes: seq<seq<OpRef>>)
    requires Ordered(before, pipes) && before <= more
    ensures Ordered(more, pipes)
    decreases |pipes|
  {
    if pipes != [] {
      OrderedMore(before + multiset(pipes[0]), more + multiset(pipes[0]), pipes[1..]);
    }
  }

  /** The extra pipelines of a node come after its own. */
  lemma {:induction false} ExtraOrdered(p: Plan, before: multiset<OpRef>)
    requires multiset(Chain(p)) <= before
    ensures Ordered(before, Extra(p))
    decreases p, 1
  {
    if p.sources != [] {
      var q := p.sources[0];
      assert multiset(Chain(p)) == multiset(Chain(q)) + multiset{Main(p.id)};
      ExtraOrdered(q, before);
      assert Main(p.id) in Chain(p);
      BuildersOrdered(p, 1, before + All(Extra(q)));
      OrderedAppend(before, Extra(q), Builders(p, 1));
    }
  }

  lemma {:induction false} BuildersOrdered(p: Plan, i: nat, before: multiset<OpRef>)
    requires 1 <= i <= |p.sources| && Main(p.id) in before
    ensures Ordered(before, Builders(p, i))
    decreases p, 0, |p.sources| - i
  {
    hide Feeder, Chain, Extra, All, Ordered;
    if i < |p.sources| {
      var q := p.sources[i];
      FeederHolds(p, i);
      assert multiset(Chain(q)) <= before + multiset(Feeder(p, i));
      ExtraOrdered(q, before + multiset(Feeder(p, i)));
      OrderedCons(before, Feeder(p, i), Extra(q));
      BuildersOrdered(p, i + 1, before + All([Feeder(p, i)] + Extra(q)));
      OrderedAppend(before, [Feeder(p, i)] + Extra(q), Builders(p, i + 1));
    } else {
      NoneOrdered(before);
    }
  }

  lemma NoneOrdered(before: multiset<OpRef>)
    ensures Ordered(before, [])
  {
  }

  lemma OrderedCons(before: multiset<OpRef>, x: seq<OpRef>, rest: seq<seq<OpRef>>)
    requires |x| > 0 && (x[|x| - 1].Build? ==> Main(x[|x| - 1].id) in before) && Ordered(before + multiset(x), rest)
    ensures Ordered(before, [x] + rest)
  {
    assert ([x] + rest)[1..] == rest;
  }

  lemma PipelinesOrdered(p: Plan)
    ensures Ordered(multiset{}, Pipelines(p))
  {
    assert multiset{} + multiset(Chain(p)) == multiset(Chain(p));
    ExtraOrdered(p, multiset(Chain(p)));
    OrderedCons(multiset{}, Chain(p), Extra(p));
  }

  /** Ordered lists, read by index. */
  lemma {:induction false} OrderedAt(before: multiset<OpRef>, pipes: seq<seq<OpRef>>, a: nat) returns (b: int)
    requires Ordered(before, pipes) && a < |pipes| && |pipes[a]| > 0 && pipes[a][|pipes[a]| - 1].Build?
    ensures -1 <= b < a
    ensures var main := Main(pipes[a][|pipes[a]| - 1].id); if b == -1 then main in before else main in pipes[b]
    decreases a
  {
    if a == 0 {
      b := -1;
    } else {
      b := OrderedAt(before + multiset(pipes[0]), pipes[1..], a - 1);
      var main := Main(pipes[a][|pipes[a]| - 1].id);
      if b == -1 {
        if main in pipes[0] {
          b := 0;
        }
      } else {
        b := b + 1;
      }
    }
  }

  function Reversed<T>(s: seq<T>): seq<T> {
    seq(|s|, i requires 0 <= i < |s| => s[|s| - 1 - i])
  }

  /** The order in which OmniTask serves the drivers. */
  method TaskDrivers(p: Plan) returns (drivers: seq<DriverPlan>)
    requires Binary(p)
    ensures |drivers| == |Pipelines(p)| && forall i | 0 <= i < |drivers| ::
      drivers[i] == DriverPlan(Reversed(Pipelines(p))[i], true, i == |drivers| - 1)
  {
    var planned := MakePlan(p);
    drivers := Reversed(planned);
  }

  /** Every pipeline that feeds a join or union is served before the pipeline that holds it; the root's comes last. */
  lemma BuildsComeFirst(p: Plan, a: nat) returns (c: nat)
    requires a < |Pipelines(p)| && |Reversed(Pipelines(p))[a]| > 0
    requires var pipe := Reversed(Pipelines(p))[a]; pipe[|pipe| - 1].Build?
    ensures a < c < |Pipelines(p)|
    ensures var pipe := Reversed(Pipelines(p))[a]; Main(pipe[|pipe| - 1].id) in Reversed(Pipelines(p))[c]
    ensures Main(p.id) in Reversed(Pipelines(p))[|Pipelines(p)| - 1]
  {
    hide Chain, Extra, Ordered;
    var pipes, n := Pipelines(p), |Pipelines(p)|;
    PipelinesOrdered(p);
    assert pipes[0] == Chain(p) && Chain(p)[|Chain(p)| - 1] == Main(p.id);
    var b := OrderedAt(multiset{}, pipes, n - 1 - a);
    c := n - 1 - b;
  }
}
