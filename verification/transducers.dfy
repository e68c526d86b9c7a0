/** A source that holds its batches, and a streaming operator that turns each batch into some others. */
module Transducers {
  import opened SqlValues
  import opened Pipeline

  datatype Queue<B> = Queue(pending: seq<B>, ended: bool)

  function Pop<B>(s: Queue<B>): (Queue<B>, Option<B>) {
    if s.pending == [] then (s, None) else (s.(pending := s.pending[1..]), Some(s.pending[0]))
  }

  function SourceOf<B>(): Operator<Queue<B>, B> {
    Operator(s => false, (s, b) => s, s => s, Pop, (s: Queue<B>) => s.pending == [], s => false)
  }

  ghost function SourcePromise<B(!new)>(data: seq<B>): Promise<Queue<B>, B> {
    Promise((s: Queue<B>, ins, outs, ended) => outs + s.pending == data, ins => data, s => 0)
  }

  function FlatMap<B>(f: B -> seq<B>, ins: seq<B>): seq<B> {
    if ins == [] then [] else FlatMap(f, ins[..|ins| - 1]) + f(ins[|ins| - 1])
  }

  function Streaming<B>(f: B -> seq<B>): Operator<Queue<B>, B> {
    Operator(
      (s: Queue<B>) => s.pending == [] && !s.ended,
      (s: Queue<B>, b: B) => Queue(f(b), s.ended),
      (s: Queue<B>) => s.(ended := true),
      Pop,
      (s: Queue<B>) => s.pending == [] && s.ended,
      s => false)
  }

  ghost function StreamingPromise<B(!new)>(f: B -> seq<B>): Promise<Queue<B>, B> {
    Promise((s: Queue<B>, ins, outs, ended) => s.ended == ended &&
      outs + s.pending == FlatMap(f, ins), ins => FlatMap(f, ins), s => 0)
  }

  lemma {:induction false} FlatMapAppend<B>(f: B -> seq<B>, xs: seq<B>, ys: seq<B>)
    ensures FlatMap(f, xs + ys) == FlatMap(f, xs) + FlatMap(f, ys)
    decreases |ys|
  {
    if ys == [] {
      assert xs + ys == xs;
    } else {
      var n := |ys| - 1;
      assert (xs + ys)[..|xs + ys| - 1] == xs + ys[..n];
      FlatMapAppend(f, xs, ys[..n]);
    }
  }

  lemma SourceLawful<B(!new)>(data: seq<B>)
    ensures Lawful(SourceOf(), SourcePromise(data)) && Source(SourceOf<B>())
  {
    var op, p := SourceOf<B>(), SourcePromise(data);
    forall s: Queue<B>, ins, outs, ended | p.rel(s, ins, outs, ended) ensures Keeps(op, p, s, ins, outs, ended) {
      if s.pending != [] {
        assert outs + [s.pending[0]] + s.pending[1..] == outs + s.pending;
      } else {
        assert outs + s.pending == outs;
      }
    }
  }

  lemma StreamingLawful<B(!new)>(f: B -> seq<B>)
    ensures Lawful(Streaming(f), StreamingPromise(f)) && ReadsAll(Streaming(f), StreamingPromise(f))
  {
    var op, p := Streaming(f), StreamingPromise(f);
    forall s: Queue<B>, ins, outs, ended | p.rel(s, ins, outs, ended) ensures Keeps(op, p, s, ins, outs, ended) {
      if s.pending != [] {
        assert outs + [s.pending[0]] + s.pending[1..] == outs + s.pending;
      } else {
        assert outs + s.pending == outs;
        forall b: B ensures p.rel(op.addInput(s, b), ins + [b], outs, s.ended) {
          assert (ins + [b])[..|ins|] == ins;
        }
      }
      forall rest ensures outs <= p.transform(ins + rest) {
        FlatMapAppend(f, ins, rest);
      }
    }
  }
}
