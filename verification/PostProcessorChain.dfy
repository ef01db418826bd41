/** The ordered pipeline of streaming post-processors. A processor is a state and three
    functions; a call that throws yields no output. */
module PostProcessorChain {
  import opened Basics

  datatype Reason = Completed | Cancelled | Error

  datatype Emission<S, C> = Emission(state: S, out: Option<seq<C>>)
  datatype Processor<!S, !C> = Processor(
    process: (S, C) -> Emission<S, C>, finish: (S, Reason) -> Emission<S, C>, reset: S -> S)

  datatype Passed<S, C> = Passed(state: S, out: seq<C>)
  datatype Ranged<S, C> = Ranged(states: seq<S>, out: seq<C>)

  // ----- one processor -----

  /** A list of chunks through one processor. */
  function Through<S, C>(p: Processor<S, C>, s: S, xs: seq<C>): Option<Passed<S, C>> {
    if xs == [] then Some(Passed(s, []))
    else
      var e := p.process(s, xs[0]);
      if e.out.None? then None
      else
        var rest := Through(p, e.state, xs[1..]);
        if rest.None? then None else Some(Passed(rest.value.state, e.out.value + rest.value.out))
  }

  /** A processor as a transform of whole streams. */
  function Whole<S, C>(p: Processor<S, C>, s: S, xs: seq<C>, reason: Reason): Option<seq<C>> {
    var fed := Through(p, s, xs);
    if fed.None? then None
    else
      var e := p.finish(fed.value.state, reason);
      if e.out.None? then None else Some(fed.value.out + e.out.value)
  }

  /** The reference: each whole-stream transform applied to the output of the one before. */
  function Compose<S, C>(ps: seq<Processor<S, C>>, ss: seq<S>, xs: seq<C>, reason: Reason): Option<seq<C>>
    requires |ps| == |ss|
  {
    if ps == [] then Some(xs)
    else
      var ys := Whole(ps[0], ss[0], xs, reason);
      if ys.None? then None else Compose(ps[1..], ss[1..], ys.value, reason)
  }

  // ----- the chain -----

  /** Chunks through every processor, one processor at a time. */
  function Range<S, C>(ps: seq<Processor<S, C>>, ss: seq<S>, xs: seq<C>): (r: Option<Ranged<S, C>>)
    requires |ps| == |ss|
    ensures r.Some? ==> |r.value.states| == |ps|
  {
    if ps == [] then Some(Ranged([], xs))
    else
      var head := Through(ps[0], ss[0], xs);
      if head.None? then None
      else
        var rest := Range(ps[1..], ss[1..], head.value.out);
        if rest.None? then None else Some(Ranged([head.value.state] + rest.value.states, rest.value.out))
  }

  /** One call per chunk, as a stream arrives. */
  function Feed<S, C>(ps: seq<Processor<S, C>>, ss: seq<S>, xs: seq<C>): (r: Option<Ranged<S, C>>)
    requires |ps| == |ss|
    ensures r.Some? ==> |r.value.states| == |ps|
    decreases |xs|
  {
    if xs == [] then Some(Ranged(ss, []))
    else
      var first := Range(ps, ss, [xs[0]]);
      if first.None? then None else Append(first.value.out, Feed(ps, first.value.states, xs[1..]))
  }

  function Append<S, C>(out: seq<C>, r: Option<Ranged<S, C>>): Option<Ranged<S, C>> {
    if r.None? then None else Some(Ranged(r.value.states, out + r.value.out))
  }

  /** Each processor in turn is finished and its last output pushed through those after it. */
  function FinishAll<S, C>(ps: seq<Processor<S, C>>, ss: seq<S>, reason: Reason): (r: Option<Ranged<S, C>>)
    requires |ps| == |ss|
    ensures r.Some? ==> |r.value.states| == |ps|
  {
    if ps == [] then Some(Ranged([], []))
    else
      var e := ps[0].finish(ss[0], reason);
      if e.out.None? then None
      else
        var pushed := Range(ps[1..], ss[1..], e.out.value);
        if pushed.None? then None
        else
          var rest := FinishAll(ps[1..], pushed.value.states, reason);
          if rest.None? then None
          else Some(Ranged([e.state] + rest.value.states, pushed.value.out + rest.value.out))
  }

  /** A stream through the chain: its chunks one by one, then its end. */
  function Stream<S, C>(ps: seq<Processor<S, C>>, ss: seq<S>, xs: seq<C>, reason: Reason): Option<seq<C>>
    requires |ps| == |ss|
  {
    var fed := Feed(ps, ss, xs);
    if fed.None? then None
    else
      var end := FinishAll(ps, fed.value.states, reason);
      if end.None? then None else Some(fed.value.out + end.value.out)
  }

  // ----- the chain is the composition -----

  lemma {:induction false} ThroughSplit<S, C>(p: Processor<S, C>, s: S, a: seq<C>, b: seq<C>)
    ensures Through(p, s, a).None? ==> Through(p, s, a + b).None?
    ensures Through(p, s, a).Some? ==>
      var x := Through(p, s, a).value;
      var y := Through(p, x.state, b);
      Through(p, s, a + b) == if y.None? then None else Some(Passed(y.value.state, x.out + y.value.out))
  {
    if a == [] {
      assert a + b == b;
      var y := Through(p, s, b);
      assert y.Some? ==> [] + y.value.out == y.value.out;
    } else {
      assert (a + b)[1..] == a[1..] + b;
      var e := p.process(s, a[0]);
      if e.out.Some? {
        ThroughSplit(p, e.state, a[1..], b);
        var x := Through(p, e.state, a[1..]);
        if x.Some? && Through(p, x.value.state, b).Some? {
          var y := Through(p, x.value.state, b).value;
          assert e.out.value + (x.value.out + y.out) == (e.out.value + x.value.out) + y.out;
        }
      }
    }
  }

  /** Pushing a list through the chain stage by stage is pushing its parts one after the other. */
  lemma {:induction false} RangeSplit<S, C>(ps: seq<Processor<S, C>>, ss: seq<S>, a: seq<C>, b: seq<C>)
    requires |ps| == |ss|
    ensures Range(ps, ss, a).None? ==> Range(ps, ss, a + b).None?
    ensures Range(ps, ss, a).Some? ==>
      Range(ps, ss, a + b) == Append(Range(ps, ss, a).value.out, Range(ps, Range(ps, ss, a).value.states, b))
  {
    if ps != [] {
      ThroughSplit(ps[0], ss[0], a, b);
      var x := Through(ps[0], ss[0], a);
      if x.Some? {
        var y := Through(ps[0], x.value.state, b);
        RangeSplit(ps[1..], ss[1..], x.value.out, if y.Some? then y.value.out else []);
      }
    }
  }

  lemma {:induction false} RangeOfNothing<S, C>(ps: seq<Processor<S, C>>, ss: seq<S>)
    requires |ps| == |ss|
    ensures Range(ps, ss, []) == Some(Ranged(ss, []))
  {
    if ps != [] {
      RangeOfNothing(ps[1..], ss[1..]);
      assert [ss[0]] + ss[1..] == ss;
    }
  }

  lemma {:induction false} FeedIsRange<S, C>(ps: seq<Processor<S, C>>, ss: seq<S>, xs: seq<C>)
    requires |ps| == |ss|
    ensures Feed(ps, ss, xs) == Range(ps, ss, xs)
    decreases |xs|
  {
    if xs == [] {
      RangeOfNothing(ps, ss);
    } else {
      assert xs == [xs[0]] + xs[1..];
      RangeSplit(ps, ss, [xs[0]], xs[1..]);
      var first := Range(ps, ss, [xs[0]]);
      if first.Some? {
        FeedIsRange(ps, first.value.states, xs[1..]);
      }
    }
  }

  /** Range then finish. */
  function Drained<S, C>(ps: seq<Processor<S, C>>, ss: seq<S>, xs: seq<C>, reason: Reason): Option<seq<C>>
    requires |ps| == |ss|
  {
    var r := Range(ps, ss, xs);
    if r.None? then None
    else
      var end := FinishAll(ps, r.value.states, reason);
      if end.None? then None else Some(r.value.out + end.value.out)
  }

  lemma {:induction false} DrainedIsCompose<S, C>(ps: seq<Processor<S, C>>, ss: seq<S>, xs: seq<C>, reason: Reason)
    requires |ps| == |ss|
    ensures Drained(ps, ss, xs, reason) == Compose(ps, ss, xs, reason)
  {
    if ps != [] {
      var head := Through(ps[0], ss[0], xs);
      if head.Some? {
        var ys := head.value.out;
        var e := ps[0].finish(head.value.state, reason);
        if e.out.Some? {
          RangeSplit(ps[1..], ss[1..], ys, e.out.value);
          DrainedIsCompose(ps[1..], ss[1..], ys + e.out.value, reason);
          DrainedHead(ps, ss, xs, reason);
        }
      }
    } else {
      assert xs + [] == xs;
    }
  }

  /** Peeling the first processor off a drained chain. */
  lemma DrainedHead<S, C>(ps: seq<Processor<S, C>>, ss: seq<S>, xs: seq<C>, reason: Reason)
    requires |ps| == |ss| && ps != [] && Through(ps[0], ss[0], xs).Some?
    requires ps[0].finish(Through(ps[0], ss[0], xs).value.state, reason).out.Some?
    ensures var head := Through(ps[0], ss[0], xs).value;
      var e := ps[0].finish(head.state, reason);
      Drained(ps, ss, xs, reason) == Drained(ps[1..], ss[1..], head.out + e.out.value, reason)
  {
    var head := Through(ps[0], ss[0], xs).value;
    var e := ps[0].finish(head.state, reason);
    RangeSplit(ps[1..], ss[1..], head.out, e.out.value);
    var r := Range(ps[1..], ss[1..], head.out);
    if r.Some? {
      assert ([head.state] + r.value.states)[1..] == r.value.states;
      var pushed := Range(ps[1..], r.value.states, e.out.value);
      if pushed.Some? {
        var rest := FinishAll(ps[1..], pushed.value.states, reason);
        if rest.Some? {
          assert r.value.out + (pushed.value.out + rest.value.out) == (r.value.out + pushed.value.out) + rest.value.out;
        }
      }
    }
  }

  /** For every list of stateful processors, every stream and every way it ends: feeding the
      chain chunk by chunk and finishing it gives the composition of the processors'
      whole-stream transforms, and throws exactly when that composition does. */
  lemma StreamIsComposition<S, C>(ps: seq<Processor<S, C>>, ss: seq<S>, xs: seq<C>, reason: Reason)
    requires |ps| == |ss|
    ensures Stream(ps, ss, xs, reason) == Compose(ps, ss, xs, reason)
  {
    FeedIsRange(ps, ss, xs);
    DrainedIsCompose(ps, ss, xs, reason);
  }

  // ----- the object -----

  class AudioPostProcessorChain<!S, !C> {
    var processors: seq<Processor<S, C>>
    var states: seq<S>
    var started: bool
    var finished: bool

    predicate Valid()
      reads this
    {
      |processors| == |states|
    }

    constructor ()
      ensures Valid() && processors == [] && !started && !finished
    {
      processors, states, started, finished := [], [], false, false;
    }

    method Add(p: Processor<S, C>, s: S) returns (ok: bool)
      requires Valid()
      modifies this
      ensures Valid() && ok == !old(started) && started == old(started) && finished == old(finished)
      ensures processors == old(processors) + (if ok then [p] else []) && states == old(states) + (if ok then [s] else [])
    {
      ok := !started;
      if ok {
        processors, states := processors + [p], states + [s];
      }
    }

    /** One processor over the chunks in hand. */
    method Stage(index: nat, chunks: seq<C>) returns (next: Option<seq<C>>)
      requires Valid() && index < |processors|
      modifies this`states
      ensures Valid() && states == old(states)[index := states[index]]
      ensures var r := Through(processors[index], old(states[index]), chunks);
        && (next.None? <==> r.None?)
        && (next.Some? ==> states == old(states)[index := r.value.state] && next.value == r.value.out)
    {
      var p := processors[index];
      ghost var all := Through(p, states[index], chunks);
      var out, j := [], 0;
      assert chunks[0..] == chunks && states == states[index := states[index]];
      assert all.Some? ==> [] + all.value.out == all.value.out;
      while j < |chunks|
        invariant j <= |chunks| && Valid()
        invariant |states| == |old(states)| && states == old(states)[index := states[index]]
        invariant var rest := Through(p, states[index], chunks[j..]);
          all == if rest.None? then None else Some(Passed(rest.value.state, out + rest.value.out))
      {
        var e := p.process(states[index], chunks[j]);
        assert chunks[j..][1..] == chunks[j + 1..];
        states := states[index := e.state];
        if e.out.None? {
          return None;
        }
        ghost var rest := Through(p, e.state, chunks[j + 1..]);
        assert rest.Some? ==> out + (e.out.value + rest.value.out) == (out + e.out.value) + rest.value.out;
        out := out + e.out.value;
        j := j + 1;
      }
      assert out + [] == out;
      return Some(out);
    }

    method ProcessRange(first: nat, chunks: seq<C>) returns (out: Option<seq<C>>)
      requires Valid() && first <= |processors|
      modifies this`states
      ensures Valid() && states[..first] == old(states)[..first]
      ensures var r := Range(processors[first..], old(states)[first..], chunks);
        && (out.None? <==> r.None?)
        && (out.Some? ==> out.value == r.value.out && states[first..] == r.value.states)
    {
      ghost var all := Range(processors[first..], states[first..], chunks);
      var index, current := first, chunks;
      PrependNothing(all);
      assert states[first..first] == [];
      while index < |processors|
        invariant first <= index <= |processors| && Valid()
        invariant states[..first] == old(states)[..first]
        invariant all == Prepend(states[first..index], Range(processors[index..], states[index..], current))
      {
        RangeFrom(processors, states, index, current);
        ghost var before := states;
        var next := Stage(index, current);
        if next.None? {
          return None;
        }
        assert states[index + 1..] == before[index + 1..];
        assert states[first..index + 1] == before[first..index] + [states[index]];
        PrependTwice(before[first..index], [states[index]], Range(processors[index + 1..], states[index + 1..], next.value));
        current := next.value;
        index := index + 1;
      }
      assert processors[index..] == [] && states[first..index] + [] == states[first..];
      return Some(current);
    }

    /** Nothing is emitted once the stream has finished. */
    method Process(chunk: C) returns (out: Option<seq<C>>)
      requires Valid()
      modifies this
      ensures Valid() && started && finished == old(finished) && processors == old(processors)
      ensures old(finished) ==> out == Some([]) && states == old(states)
      ensures !old(finished) ==>
        var r := Range(processors, old(states), [chunk]);
        (out.None? <==> r.None?) && (out.Some? ==> out.value == r.value.out && states == r.value.states)
    {
      started := true;
      if finished {
        return Some([]);
      }
      assert processors[0..] == processors && states[0..] == states;
      out := ProcessRange(0, [chunk]);
      assert states[0..] == states;
    }

    /** A second finish emits nothing. */
    method Finish(reason: Reason) returns (out: Option<seq<C>>)
      requires Valid()
      modifies this
      ensures Valid() && started && finished && processors == old(processors)
      ensures old(finished) ==> out == Some([]) && states == old(states)
      ensures !old(finished) ==>
        var r := FinishAll(processors, old(states), reason);
        (out.None? <==> r.None?) && (out.Some? ==> out.value == r.value.out && states == r.value.states)
    {
      started := true;
      if finished {
        return Some([]);
      }
      finished := true;
      out := FinishStages(reason);
    }

    method FinishStages(reason: Reason) returns (out: Option<seq<C>>)
      requires Valid()
      modifies this`states
      ensures Valid()
      ensures var r := FinishAll(processors, old(states), reason);
        (out.None? <==> r.None?) && (out.Some? ==> out.value == r.value.out && states == r.value.states)
    {
      ghost var all := FinishAll(processors, states, reason);
      var output, index := [], 0;
      assert processors[0..] == processors && states[0..] == states && states[..0] == [];
      PrependNothing(all);
      AppendNothing(all);
      while index < |processors|
        invariant index <= |processors| && Valid()
        invariant all == Append(output, Prepend(states[..index], FinishAll(processors[index..], states[index..], reason)))
      {
        ghost var before := states;
        var pushed := FinishStage(index, reason);
        if pushed.None? {
          return None;
        }
        ghost var rest := FinishAll(processors[index + 1..], states[index + 1..], reason);
        assert states[..index + 1] == before[..index] + [states[index]];
        PrependAppend(before[..index], [states[index]], output, pushed.value, rest);
        output := output + pushed.value;
        index := index + 1;
      }
      assert processors[index..] == [] && states[..index] + [] == states && output + [] == output;
      return Some(output);
    }

    /** Finishes one processor and pushes what it releases through those after it. */
    method FinishStage(index: nat, reason: Reason) returns (pushed: Option<seq<C>>)
      requires Valid() && index < |processors|
      modifies this`states
      ensures Valid() && states[..index] == old(states)[..index]
      ensures var all := FinishAll(processors[index..], old(states)[index..], reason);
        if pushed.None? then all.None?
        else all == Append(pushed.value, Prepend([states[index]],
                      FinishAll(processors[index + 1..], states[index + 1..], reason)))
    {
      ghost var before := states;
      assert processors[index..][1..] == processors[index + 1..] && before[index..][1..] == before[index + 1..];
      var e := processors[index].finish(states[index], reason);
      states := states[index := e.state];
      if e.out.None? {
        return None;
      }
      assert states[index + 1..] == before[index + 1..];
      pushed := ProcessRange(index + 1, e.out.value);
      assert states[index] == states[..index + 1][index] && states[..index] == states[..index + 1][..index];
    }

    /** Reset reaches every processor and lets the chain be used again. */
    method Reset()
      requires Valid()
      modifies this
      ensures Valid() && !started && !finished && processors == old(processors)
      ensures forall i :: 0 <= i < |states| ==> states[i] == processors[i].reset(old(states)[i])
    {
      var i := 0;
      while i < |processors|
        invariant i <= |processors| && Valid() && processors == old(processors) && |states| == |old(states)|
        invariant forall k :: 0 <= k < |states| ==>
          states[k] == if k < i then processors[k].reset(old(states)[k]) else old(states)[k]
      {
        states := states[i := processors[i].reset(states[i])];
        i := i + 1;
      }
      started, finished := false, false;
    }

    /** A whole stream through a fresh chain yields the composition. */
    method RunStream(chunks: seq<C>, reason: Reason) returns (out: Option<seq<C>>)
      requires Valid() && !finished
      modifies this
      ensures Valid() && processors == old(processors)
      ensures out == Compose(processors, old(states), chunks, reason)
      ensures out.Some? ==> finished
    {
      StreamIsComposition(processors, states, chunks, reason);
      var emitted, j := [], 0;
      assert chunks[0..] == chunks;
      AppendNothing(Feed(processors, states, chunks));
      while j < |chunks|
        invariant j <= |chunks| && Valid() && !finished && processors == old(processors)
        invariant Feed(processors, old(states), chunks) == Append(emitted, Feed(processors, states, chunks[j..]))
      {
        assert chunks[j..][1..] == chunks[j + 1..];
        var r := Process(chunks[j]);
        if r.None? {
          return None;
        }
        AppendTwice(emitted, r.value, Feed(processors, states, chunks[j + 1..]));
        emitted := emitted + r.value;
        j := j + 1;
      }
      assert chunks[j..] == [];
      assert emitted + [] == emitted;
      var last := Finish(reason);
      if last.None? {
        return None;
      }
      return Some(emitted + last.value);
    }
  }

  function Prepend<S, C>(states: seq<S>, r: Option<Ranged<S, C>>): Option<Ranged<S, C>> {
    if r.None? then None else Some(Ranged(states + r.value.states, r.value.out))
  }

  lemma PrependNothing<S, C>(r: Option<Ranged<S, C>>)
    ensures Prepend([], r) == r
  {
    if r.Some? {
      assert [] + r.value.states == r.value.states;
    }
  }

  lemma PrependTwice<S, C>(a: seq<S>, b: seq<S>, r: Option<Ranged<S, C>>)
    ensures Prepend(a, Prepend(b, r)) == Prepend(a + b, r)
  {
    if r.Some? {
      assert a + (b + r.value.states) == (a + b) + r.value.states;
    }
  }

  lemma AppendNothing<S, C>(r: Option<Ranged<S, C>>)
    ensures Append([], r) == r
  {
    if r.Some? {
      assert [] + r.value.out == r.value.out;
    }
  }

  lemma AppendTwice<S, C>(a: seq<C>, b: seq<C>, r: Option<Ranged<S, C>>)
    ensures Append(a, Append(b, r)) == Append(a + b, r)
  {
    if r.Some? {
      assert a + (b + r.value.out) == (a + b) + r.value.out;
    }
  }

  lemma PrependAppend<S, C>(a: seq<S>, b: seq<S>, x: seq<C>, y: seq<C>, r: Option<Ranged<S, C>>)
    ensures Append(x, Prepend(a, Append(y, Prepend(b, r)))) == Append(x + y, Prepend(a + b, r))
  {
    PrependTwice(a, b, r);
    AppendTwice(x, y, Prepend(a + b, r));
  }

  lemma RangeFrom<S, C>(ps: seq<Processor<S, C>>, ss: seq<S>, i: nat, xs: seq<C>)
    requires |ps| == |ss| && i < |ps|
    ensures var head := Through(ps[i], ss[i], xs);
      Range(ps[i..], ss[i..], xs) ==
        if head.None? then None else Prepend([head.value.state], Range(ps[i + 1..], ss[i + 1..], head.value.out))
  {
    assert ps[i..][1..] == ps[i + 1..] && ss[i..][1..] == ss[i + 1..];
  }
}
