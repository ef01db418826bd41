/** The callback adapter: any thread, also one that is inside a downstream callback, submits
    events to a shared queue; whoever finds nobody dispatching drains it. The steps are the
    two lock regions, the start of an event and each downstream call. */
module CallbackAdapter {
  import opened Basics
  import opened Pcm

  type Thread = nat

  datatype Event = Text | Audio(chunk: Chunk) | Metadata | Completed | Cancelled | Error

  datatype Call =
    | OnText | OnAudio(chunk: Chunk) | OnTiming(chunk: Chunk) | OnMetadata
    | OnCompleted | OnCancelled | OnError(local: bool)

  /** Which downstream callbacks are set. */
  datatype Sinks = Sinks(
    text: bool, audio: bool, timing: bool, metadata: bool, completed: bool, cancelled: bool, error: bool)

  predicate IsTerminal(c: Call) { c.OnCompleted? || c.OnCancelled? || c.OnError? }

  // ----- one event -----

  function Emit(h: Sinks, chunks: seq<Chunk>): seq<Call> {
    if chunks == [] then []
    else (if h.audio then [OnAudio(chunks[0])] else [])
         + (if h.timing && chunks[0].sampleCount != 0 then [OnTiming(chunks[0])] else [])
         + Emit(h, chunks[1..])
  }

  /** Whether the event reaches the processors; `produced` is what they return, or None when
      they throw. */
  predicate Processes(e: Event, terminal: bool) { !e.Text? && !e.Metadata? && !terminal }

  function Last(h: Sinks, e: Event): seq<Call> {
    match e
    case Completed => if h.completed then [OnCompleted] else []
    case Cancelled => if h.cancelled then [OnCancelled] else []
    case Error => if h.error then [OnError(false)] else []
    case _ => []
  }

  /** The downstream calls of an event, in order. */
  function Plan(h: Sinks, e: Event, terminal: bool, produced: Option<seq<Chunk>>): seq<Call> {
    if e.Text? then (if h.text then [OnText] else [])
    else if terminal then []
    else if e.Metadata? then (if h.metadata then [OnMetadata] else [])
    else if produced.None? then (if h.error then [OnError(true)] else [])
    else Emit(h, produced.value) + Last(h, e)
  }

  /** The flag after an event; it is written before any downstream call is made. */
  predicate TerminalAfter(e: Event, terminal: bool, produced: Option<seq<Chunk>>) {
    terminal || (Processes(e, terminal) && (!e.Audio? || produced.None?))
  }

  // ----- threads -----

  /** Where a call of dispatch_event stands in its loop. */
  datatype Frame = Draining | Ready(e: Event) | Running(todo: seq<Call>)

  /** `stacks` holds the nested dispatch_event calls of each thread. The fields from
      `submitted` on are history. */
  datatype State = State(
    events: seq<Event>, dispatching: bool, terminal: bool, stacks: map<Thread, seq<Frame>>,
    submitted: seq<Event>, taken: seq<Event>, log: seq<Call>, owners: seq<nat>, made: seq<Chunk>,
    dispatcher: Option<Thread>, thrown: bool)

  datatype Label =
    | Submit(t: Thread, e: Event) | Take(t: Thread)
    | Begin(t: Thread, produced: Option<seq<Chunk>>) | Deliver(t: Thread, throws: bool) | End(t: Thread)

  const INITIAL := State([], false, false, map[], [], [], [], [], [], None, false)

  function Stack(s: State, t: Thread): seq<Frame> { if t in s.stacks then s.stacks[t] else [] }

  predicate Top(s: State, t: Thread) { Stack(s, t) != [] }

  function TopOf(s: State, t: Thread): Frame
    requires Top(s, t)
  {
    Stack(s, t)[|Stack(s, t)| - 1]
  }

  function Replace(s: State, t: Thread, f: Frame): map<Thread, seq<Frame>>
    requires Top(s, t)
  {
    s.stacks[t := Stack(s, t)[..|Stack(s, t)| - 1] + [f]]
  }

  function Pop(s: State, t: Thread): map<Thread, seq<Frame>>
    requires Top(s, t)
  {
    if |Stack(s, t)| == 1 then s.stacks - {t} else s.stacks[t := Stack(s, t)[..|Stack(s, t)| - 1]]
  }

  /** A thread may submit from outside, or from inside a downstream call it is running. */
  predicate Enabled(s: State, l: Label) {
    match l
    case Submit(t, _) => Top(s, t) ==> TopOf(s, t).Running?
    case Take(t) => Top(s, t) && TopOf(s, t).Draining?
    case Begin(t, _) => Top(s, t) && TopOf(s, t).Ready?
    case Deliver(t, _) => Top(s, t) && TopOf(s, t).Running? && TopOf(s, t).todo != []
    case End(t) => Top(s, t) && TopOf(s, t) == Running([])
  }

  function Apply(h: Sinks, s: State, l: Label): State
    requires Enabled(s, l)
  {
    match l
    case Submit(t, e) =>
      var q := s.(events := s.events + [e], submitted := s.submitted + [e]);
      if s.dispatching then q
      else q.(dispatching := true, stacks := s.stacks[t := Stack(s, t) + [Draining]], dispatcher := Some(t))
    case Take(t) =>
      if s.events == [] then s.(dispatching := false, stacks := Pop(s, t), dispatcher := None)
      else s.(events := s.events[1..], taken := s.taken + [s.events[0]], stacks := Replace(s, t, Ready(s.events[0])))
    case Begin(t, produced) =>
      var e := TopOf(s, t).e;
      s.(terminal := TerminalAfter(e, s.terminal, produced),
         stacks := Replace(s, t, Running(Plan(h, e, s.terminal, produced))),
         made := if Processes(e, s.terminal) && produced.Some? then s.made + produced.value else s.made)
    case Deliver(t, throws) =>
      var todo := TopOf(s, t).todo;
      s.(log := s.log + [todo[0]], owners := s.owners + [|s.taken|], thrown := s.thrown || throws,
         stacks := Replace(s, t, if throws then Draining else Running(todo[1..])))
    case End(t) => s.(stacks := Replace(s, t, Draining))
  }

  function Step(h: Sinks, s: State, l: Label): State {
    if Enabled(s, l) then Apply(h, s, l) else s
  }

  function Run(h: Sinks, schedule: seq<Label>): State {
    if schedule == [] then INITIAL
    else Step(h, Run(h, schedule[..|schedule| - 1]), schedule[|schedule| - 1])
  }

  // ----- one dispatcher, first in first out -----

  /** The flag is the lock: exactly one thread is inside, once, when it is set. */
  ghost predicate Exclusive(s: State) {
    && (s.dispatching <==> s.dispatcher.Some?)
    && (forall t :: t in s.stacks <==> s.dispatcher == Some(t))
    && (s.dispatching ==> |s.stacks[s.dispatcher.value]| == 1)
    && (!s.dispatching ==> s.events == [])
  }

  lemma ExclusiveStep(h: Sinks, s: State, l: Label)
    requires Exclusive(s)
    ensures Exclusive(Step(h, s, l))
  {
  }

  ghost predicate Fifo(s: State) { s.submitted == s.taken + s.events }

  lemma FifoStep(h: Sinks, s: State, l: Label)
    requires Fifo(s)
    ensures Fifo(Step(h, s, l))
  {
    if Enabled(s, l) {
      if l.Submit? {
        assert (s.taken + s.events) + [l.e] == s.taken + (s.events + [l.e]);
      } else if l.Take? && s.events != [] {
        assert s.taken + s.events == (s.taken + [s.events[0]]) + s.events[1..];
      }
    }
  }

  /** Downstream calls are logged under the number of the event that makes them. */
  ghost predicate OneByOne(s: State) {
    && |s.owners| == |s.log|
    && (forall i :: 0 <= i < |s.owners| ==> 1 <= s.owners[i] <= |s.taken|)
    && (forall i, j :: 0 <= i < j < |s.owners| ==> s.owners[i] <= s.owners[j])
    && (forall t :: Top(s, t) && !TopOf(s, t).Draining? ==> s.taken != [])
  }

  lemma OneByOneStep(h: Sinks, s: State, l: Label)
    requires Exclusive(s) && OneByOne(s)
    ensures OneByOne(Step(h, s, l))
  {
    var after := Step(h, s, l);
    forall t | Top(after, t) && !TopOf(after, t).Draining? ensures after.taken != [] {
      if Top(s, t) && !TopOf(s, t).Draining? {
        assert s.taken != [];
      }
    }
  }

  // ----- what downstream sees -----

  /** The calls the dispatcher has still to make for the event in hand. */
  function Todo(s: State): seq<Call> {
    if s.dispatcher.Some? && Top(s, s.dispatcher.value) && TopOf(s, s.dispatcher.value).Running?
    then TopOf(s, s.dispatcher.value).todo else []
  }

  function Line(s: State): seq<Call> { s.log + Todo(s) }

  /** After a terminal call only text events pass. */
  ghost predicate Closed(line: seq<Call>) {
    forall i, j :: 0 <= i < j < |line| && IsTerminal(line[i]) ==> line[j].OnText?
  }

  ghost predicate HasTerminal(line: seq<Call>) {
    exists i :: 0 <= i < |line| && IsTerminal(line[i])
  }

  function Audios(line: seq<Call>): seq<Chunk> {
    if line == [] then []
    else (if line[0].OnAudio? then [line[0].chunk] else []) + Audios(line[1..])
  }

  predicate AllSet(h: Sinks) { h.audio && h.completed && h.cancelled && h.error }

  ghost predicate Delivered(h: Sinks, s: State) {
    && Closed(Line(s))
    && (HasTerminal(Line(s)) ==> s.terminal)
    && (AllSet(h) && s.terminal && !s.thrown ==> HasTerminal(Line(s)))
    && (h.audio && !s.thrown ==> Audios(Line(s)) == s.made)
  }

  lemma {:induction false} AudiosConcat(a: seq<Call>, b: seq<Call>)
    ensures Audios(a + b) == Audios(a) + Audios(b)
  {
    if a == [] {
      assert a + b == b;
    } else {
      var head := if a[0].OnAudio? then [a[0].chunk] else [];
      assert (a + b)[1..] == a[1..] + b && (a + b)[0] == a[0];
      AudiosConcat(a[1..], b);
      assert head + (Audios(a[1..]) + Audios(b)) == (head + Audios(a[1..])) + Audios(b);
    }
  }

  lemma {:induction false} EmitsChunks(h: Sinks, chunks: seq<Chunk>)
    ensures h.audio ==> Audios(Emit(h, chunks)) == chunks
    ensures forall i :: 0 <= i < |Emit(h, chunks)| ==> Emit(h, chunks)[i].OnAudio? || Emit(h, chunks)[i].OnTiming?
  {
    if chunks != [] {
      EmitsChunks(h, chunks[1..]);
      var a := if h.audio then [OnAudio(chunks[0])] else [];
      var b := if h.timing && chunks[0].sampleCount != 0 then [OnTiming(chunks[0])] else [];
      AudiosConcat(a + b, Emit(h, chunks[1..]));
      AudiosConcat(a, b);
      OneCall(OnAudio(chunks[0]));
      OneCall(OnTiming(chunks[0]));
      assert Emit(h, chunks) == (a + b) + Emit(h, chunks[1..]);
    }
  }

  lemma OneCall(c: Call)
    ensures Audios([c]) == if c.OnAudio? then [c.chunk] else []
  {
    assert [c][1..] == [];
  }

  /** A plan has at most one terminal call, its last, and only when it sets the flag. */
  lemma PlanShape(h: Sinks, e: Event, terminal: bool, produced: Option<seq<Chunk>>)
    ensures var plan := Plan(h, e, terminal, produced);
      && (forall i :: 0 <= i < |plan| - 1 ==> !IsTerminal(plan[i]))
      && (terminal ==> forall i :: 0 <= i < |plan| ==> plan[i].OnText?)
      && (HasTerminal(plan) ==> TerminalAfter(e, terminal, produced))
      && (AllSet(h) && TerminalAfter(e, terminal, produced) && !terminal ==> HasTerminal(plan))
  {
    var plan := Plan(h, e, terminal, produced);
    if Processes(e, terminal) && produced.Some? {
      EmitsChunks(h, produced.value);
      if Last(h, e) != [] {
        assert plan[|plan| - 1] == Last(h, e)[0];
      }
    } else if plan != [] && IsTerminal(plan[0]) {
      assert plan == [OnError(true)];
    }
  }

  lemma PlanAudio(h: Sinks, e: Event, terminal: bool, produced: Option<seq<Chunk>>)
    requires h.audio
    ensures Audios(Plan(h, e, terminal, produced)) ==
      if Processes(e, terminal) && produced.Some? then produced.value else []
  {
    var plan := Plan(h, e, terminal, produced);
    if Processes(e, terminal) && produced.Some? {
      EmitsChunks(h, produced.value);
      AudiosConcat(Emit(h, produced.value), Last(h, e));
      NoAudios(Last(h, e));
    } else {
      NoAudios(plan);
    }
  }

  lemma LineBegins(h: Sinks, s: State, l: Label)
    requires Exclusive(s) && Enabled(s, l) && l.Begin?
    ensures Line(Apply(h, s, l)) == Line(s) + Plan(h, TopOf(s, l.t).e, s.terminal, l.produced)
  {
    assert Todo(s) == [];
  }

  /** Deliveries do not change the line of calls made and owed; a throw cuts its end off. */
  lemma LineDelivers(h: Sinks, s: State, l: Label)
    requires Exclusive(s) && Enabled(s, l) && l.Deliver?
    ensures |s.log| < |Line(s)|
    ensures Line(Apply(h, s, l)) == if l.throws then Line(s)[..|s.log| + 1] else Line(s)
  {
    var todo := TopOf(s, l.t).todo;
    assert Line(s) == s.log + todo;
    assert s.log + todo == (s.log + [todo[0]]) + todo[1..];
  }

  lemma LineStays(h: Sinks, s: State, l: Label)
    requires Exclusive(s) && Enabled(s, l) && !l.Begin? && !l.Deliver?
    ensures Line(Apply(h, s, l)) == Line(s)
  {
    assert Todo(Apply(h, s, l)) == Todo(s);
  }

  lemma ClosedGrows(line: seq<Call>, plan: seq<Call>)
    requires Closed(line) && (forall i :: 0 <= i < |plan| - 1 ==> !IsTerminal(plan[i]))
    requires HasTerminal(line) ==> forall i :: 0 <= i < |plan| ==> plan[i].OnText?
    ensures Closed(line + plan)
  {
  }

  lemma TerminalGrows(line: seq<Call>, plan: seq<Call>)
    ensures HasTerminal(line + plan) <==> HasTerminal(line) || HasTerminal(plan)
  {
    var all := line + plan;
    if HasTerminal(line) {
      var i :| 0 <= i < |line| && IsTerminal(line[i]);
      assert IsTerminal(all[i]);
    }
    if HasTerminal(plan) {
      var i :| 0 <= i < |plan| && IsTerminal(plan[i]);
      assert IsTerminal(all[|line| + i]);
    }
  }

  lemma DeliveredStep(h: Sinks, s: State, l: Label)
    requires Exclusive(s) && Delivered(h, s)
    ensures Delivered(h, Step(h, s, l))
  {
    if Enabled(s, l) {
      if l.Deliver? {
        LineDelivers(h, s, l);
      } else if !l.Begin? {
        LineStays(h, s, l);
      } else {
        LineBegins(h, s, l);
        var e := TopOf(s, l.t).e;
        var plan := Plan(h, e, s.terminal, l.produced);
        PlanShape(h, e, s.terminal, l.produced);
        if h.audio {
          PlanAudio(h, e, s.terminal, l.produced);
        }
        ClosedGrows(Line(s), plan);
        TerminalGrows(Line(s), plan);
        AudiosConcat(Line(s), plan);
      }
    }
  }

  // ----- events that end the stream -----

  predicate IsEnding(e: Event) { e.Completed? || e.Cancelled? || e.Error? }

  /** Every ending event taken so far has set the flag, but for the one about to start. */
  ghost predicate Flagged(s: State) {
    forall i :: 0 <= i < |s.taken| && IsEnding(s.taken[i]) ==>
      s.terminal || (i == |s.taken| - 1 && s.dispatcher.Some? && Top(s, s.dispatcher.value) &&
                     TopOf(s, s.dispatcher.value) == Ready(s.taken[i]))
  }

  lemma FlaggedStep(h: Sinks, s: State, l: Label)
    requires Exclusive(s) && Flagged(s)
    ensures Flagged(Step(h, s, l))
  {
  }

  // ----- every run -----

  ghost predicate Inv(h: Sinks, s: State) { Exclusive(s) && Fifo(s) && OneByOne(s) && Delivered(h, s) && Flagged(s) }

  lemma {:induction false} RunInv(h: Sinks, schedule: seq<Label>)
    ensures Inv(h, Run(h, schedule))
  {
    if schedule != [] {
      var s, l := Run(h, schedule[..|schedule| - 1]), schedule[|schedule| - 1];
      RunInv(h, schedule[..|schedule| - 1]);
      ExclusiveStep(h, s, l);
      FifoStep(h, s, l);
      OneByOneStep(h, s, l);
      DeliveredStep(h, s, l);
      FlaggedStep(h, s, l);
    }
  }

  /** Under every interleaving of concurrent and re-entrant submissions: at most one thread
      dispatches and never nested, the events started so far and those queued are the
      submitted ones in order, calls of different events do not mix, and the queue is empty
      whenever nobody dispatches. */
  lemma DispatchSerial(h: Sinks, schedule: seq<Label>, t: Thread, u: Thread)
    ensures var s := Run(h, schedule);
      && s.submitted == s.taken + s.events
      && |Stack(s, t)| <= 1
      && (Top(s, t) && Top(s, u) ==> t == u)
      && (Top(s, t) ==> s.dispatching)
      && (!s.dispatching ==> s.events == [] && s.taken == s.submitted && Stack(s, t) == [])
      && |s.owners| == |s.log|
      && (forall i, j :: 0 <= i < j < |s.owners| ==> s.owners[i] <= s.owners[j] <= |s.taken|)
  {
    RunInv(h, schedule);
  }

  /** Downstream sees at most one terminal call and no audio, timing or metadata after it. */
  lemma AtMostOneTerminal(h: Sinks, schedule: seq<Label>, i: nat, j: nat)
    requires i < j < |Run(h, schedule).log| && IsTerminal(Run(h, schedule).log[i])
    ensures Run(h, schedule).log[j].OnText?
  {
    RunInv(h, schedule);
    var s := Run(h, schedule);
    assert Line(s)[i] == s.log[i] && Line(s)[j] == s.log[j];
  }

  /** If no callback throws, then once nobody dispatches every chunk the processors produced
      was delivered in order; and a stream for which a terminal event was submitted has got
      its terminal call, as has one whose processors threw. */
  lemma DeliveredAll(h: Sinks, schedule: seq<Label>, i: nat)
    requires var s := Run(h, schedule); AllSet(h) && !s.thrown && !s.dispatching
    ensures var s := Run(h, schedule);
      && Audios(s.log) == s.made && (s.terminal <==> HasTerminal(s.log))
      && (i < |s.submitted| && IsEnding(s.submitted[i]) ==> HasTerminal(s.log))
  {
    RunInv(h, schedule);
    var s := Run(h, schedule);
    assert Line(s) == s.log && s.submitted == s.taken;
  }

  /** At the moment of the terminal call, all audio made so far, the flushed tail included,
      has been delivered. */
  lemma TailBeforeTerminal(h: Sinks, schedule: seq<Label>, l: Label)
    requires var s := Run(h, schedule);
      h.audio && !s.thrown && Enabled(s, l) && l.Deliver? && IsTerminal(TopOf(s, l.t).todo[0])
    ensures Audios(Run(h, schedule).log) == Run(h, schedule).made
  {
    RunInv(h, schedule);
    var s := Run(h, schedule);
    var todo := TopOf(s, l.t).todo;
    assert Line(s) == s.log + todo;
    AudiosConcat(s.log, todo);
    assert forall k :: 0 < k < |todo| ==> todo[k] == Line(s)[|s.log| + k];
    assert Line(s)[|s.log|] == todo[0];
    NoAudios(todo);
  }

  lemma {:induction false} NoAudios(line: seq<Call>)
    requires forall i :: 0 <= i < |line| ==> !line[i].OnAudio?
    ensures Audios(line) == []
  {
    if line != [] {
      NoAudios(line[1..]);
    }
  }
}
