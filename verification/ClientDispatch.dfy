/** The client's inbound half: the map of active requests, and the callbacks that the
    dispatcher and a stopping thread have taken out of it and still have to make. */
module ClientDispatch {
  import opened Basics
  import opened Pcm

  type RequestId = nat
  const TWO64 := 0x1_0000_0000_0000_0000
  const MAX32 := 0xFFFF_FFFF

  /** The callbacks that a request may register. */
  datatype Sink = OnText | OnAudio | OnTiming | OnMetadata | OnCompleted | OnCancelled | OnError

  /** A callback; a terminal outcome is also noted when no callback is registered for it, and
      then it is not told. */
  datatype Kind =
    | Text | Audio(first: nat, count: nat) | Timing(first: nat, count: nat) | Metadata
    | Completed(told: bool) | Cancelled(told: bool) | Failed(told: bool)

  /** What a thread has still to do: a callback, one of the lock regions that take callbacks
      out of the request map, or the last region of stop. */
  datatype Item = Call(id: RequestId, kind: Kind) | FailOne(id: RequestId) | FailAll | EndStop

  datatype Active = Active(format: Format, next: nat, texted: bool, sinks: set<Sink>)

  /** `disp` and `ext` are what the dispatcher and an outside thread in stop have still to do,
      `at` is the last callback that the dispatcher began for the event in hand; `accepted`,
      with what each request registered, and `log` are history. */
  datatype Desk = Desk(
    active: map<RequestId, Active>, disp: seq<Item>, ext: seq<Item>, at: Option<Item>,
    late: nat, duplicates: nat, accepted: map<RequestId, set<Sink>>, log: seq<Item>)

  const EMPTY := Desk(map[], [], [], None, 0, 0, map[], [])

  datatype Event =
    | StartedEvent(id: RequestId, format: Format) | AudioEvent(id: RequestId, size: nat)
    | CompletedEvent(id: RequestId) | CancelledEvent(id: RequestId)
    | WorkerErrorEvent(id: RequestId) | LocalErrorEvent | OtherEvent

  // ----- sample counts -----

  /** Zero stands for an unsupported encoding. */
  function FrameSize(f: Format): nat {
    if f.encoding == "u8" then f.channels
    else if f.encoding == "s16le" then 2 * f.channels
    else if f.encoding == "s24le" then 3 * f.channels
    else if f.encoding == "s32le" || f.encoding == "f32le" then 4 * f.channels
    else 0
  }

  /** How many frames fill `size` bytes exactly. */
  function WholeFrames(size: nat, frame: nat): (r: Option<nat>)
    ensures r.Some? ==> (r.value == 0 <==> size == 0) && frame * r.value == size
  {
    if frame == 0 || size % frame != 0 then None else Some(size / frame)
  }

  function SampleCount(format: Format, size: nat): Option<nat> {
    var n := WholeFrames(size, FrameSize(format));
    if n.Some? && n.value > MAX32 then None else n
  }

  // ----- lock regions -----

  function Admit(d: Desk, id: RequestId, format: Format, sinks: set<Sink>): Desk {
    d.(active := d.active[id := Active(format, 0, false, sinks)], accepted := d.accepted[id := sinks])
  }

  /** The request is active and registered an error callback. */
  predicate Told(active: map<RequestId, Active>, id: RequestId) { id in active && OnError in active[id].sinks }

  function Complete(d: Desk, id: RequestId): Desk {
    if id in d.active
    then d.(active := d.active - {id}, disp := CompletionCalls(id, d.active[id].sinks))
    else d.(duplicates := d.duplicates + 1)
  }

  function Cancel(d: Desk, id: RequestId): Desk {
    if id in d.active
    then d.(active := d.active - {id}, disp := [Call(id, Cancelled(OnCancelled in d.active[id].sinks))])
    else d.(duplicates := d.duplicates + 1)
  }

  function Optional(wanted: bool, item: Item): seq<Item> { if wanted then [item] else [] }

  function CompletionCalls(id: RequestId, sinks: set<Sink>): seq<Item> {
    Optional(OnMetadata in sinks, Call(id, Metadata)) + [Call(id, Completed(OnCompleted in sinks))]
  }

  /** The text goes out once; from then on it counts as delivered, registered or not. */
  function TextCalls(id: RequestId, r: Active): seq<Item> {
    Optional(!r.texted && OnText in r.sinks, Call(id, Text))
  }

  function AudioCalls(id: RequestId, sinks: set<Sink>, size: nat, first: nat, count: nat): seq<Item> {
    Optional(size != 0 && OnAudio in sinks, Call(id, Audio(first, count))) +
    Optional(size != 0 && count != 0 && OnTiming in sinks, Call(id, Timing(first, count)))
  }

  function CountOf(format: Format, size: nat): nat {
    if SampleCount(format, size).Some? then SampleCount(format, size).value else 0
  }

  function Played(r: Active, count: nat): Active { r.(next := (r.next + count) % TWO64, texted := true) }

  function HandleAudio(d: Desk, id: RequestId, size: nat): Desk {
    if id !in d.active then d.(late := d.late + 1)
    else if size != 0 && SampleCount(d.active[id].format, size).None? then d.(disp := [FailOne(id)])
    else Deliver(d, id, size, CountOf(d.active[id].format, size))
  }

  function Deliver(d: Desk, id: RequestId, size: nat, count: nat): Desk
    requires id in d.active
  {
    d.(active := d.active[id := Played(d.active[id], count)],
       disp := TextCalls(id, d.active[id]) + AudioCalls(id, d.active[id].sinks, size, d.active[id].next, count))
  }

  function HandleStarted(d: Desk, id: RequestId, format: Format): Desk {
    if id !in d.active then d
    else d.(active := d.active[id := d.active[id].(format := format, texted := true)], disp := TextCalls(id, d.active[id]))
  }

  /** `handled` says that a local failure was already dealt with. */
  function HandleEvent(d: Desk, e: Event, handled: bool): Desk {
    match e
    case StartedEvent(id, format) => HandleStarted(d, id, format)
    case AudioEvent(id, size) => HandleAudio(d, id, size)
    case CompletedEvent(id) => Complete(d, id)
    case CancelledEvent(id) => Cancel(d, id)
    case WorkerErrorEvent(id) => d.(disp := [if id == 0 then FailAll else FailOne(id)])
    case LocalErrorEvent => if handled then d else d.(disp := [FailAll])
    case OtherEvent => d
  }

  datatype Thread = Dispatcher | External

  function Todo(d: Desk, t: Thread): seq<Item> { if t.Dispatcher? then d.disp else d.ext }

  function WithTodo(d: Desk, t: Thread, todo: seq<Item>): Desk {
    if t.Dispatcher? then d.(disp := todo) else d.(ext := todo)
  }

  /** What becomes of a callback's thread and the log when it reaches `item`; only a registered
      callback runs. */
  function Made(d: Desk, t: Thread, item: Item): Desk {
    var runs := t.Dispatcher? && item.Call? && IsTold(item.kind);
    d.(log := d.log + [item], at := if runs then Some(item) else d.at)
  }

  predicate IsTold(kind: Kind) { kind.Completed? || kind.Cancelled? || kind.Failed? ==> kind.told }

  function Failures(order: seq<RequestId>, active: map<RequestId, Active>): seq<Item> {
    if order == [] then [] else [Call(order[0], Failed(Told(active, order[0])))] + Failures(order[1..], active)
  }

  /** The unordered map is walked in any order, each request once. */
  predicate Enumerates(order: seq<RequestId>, active: map<RequestId, Active>) {
    (forall id :: id in order ==> id in active) && (forall id :: id in active ==> id in order) &&
    (forall i, j :: 0 <= i < j < |order| ==> order[i] != order[j])
  }

  /** The thread does the first thing it has to do. */
  function Execute(d: Desk, t: Thread, order: seq<RequestId>): Desk
    requires Todo(d, t) != []
  {
    var rest := Todo(d, t)[1..];
    match Todo(d, t)[0]
    case Call(_, _) => Made(WithTodo(d, t, rest), t, Todo(d, t)[0])
    case FailOne(id) => ExecuteFailOne(d, t, id, rest)
    case FailAll => WithTodo(d, t, Failures(order, d.active) + rest).(active := map[])
    case EndStop => WithTodo(d, t, rest)
  }

  function ExecuteFailOne(d: Desk, t: Thread, id: RequestId, rest: seq<Item>): Desk {
    if id in d.active then WithTodo(d, t, [Call(id, Failed(Told(d.active, id)))] + rest).(active := d.active - {id})
    else WithTodo(d, t, rest).(duplicates := d.duplicates + 1)
  }

  /** A stop from inside a callback runs before what its thread has left. */
  function BeginStop(d: Desk, t: Thread): Desk { WithTodo(d, t, [FailAll, EndStop] + Todo(d, t)) }

  // ----- one terminal outcome -----

  predicate IsEnd(item: Item, id: RequestId) {
    item.Call? && item.id == id && (item.kind.Completed? || item.kind.Cancelled? || item.kind.Failed?)
  }

  function Ends(items: seq<Item>, id: RequestId): nat {
    if items == [] then 0 else (if IsEnd(items[0], id) then 1 else 0) + Ends(items[1..], id)
  }

  lemma {:induction false} EndsConcat(a: seq<Item>, b: seq<Item>, id: RequestId)
    ensures Ends(a + b, id) == Ends(a, id) + Ends(b, id)
  {
    if a == [] {
      assert a + b == b;
    } else {
      assert (a + b)[1..] == a[1..] + b;
      EndsConcat(a[1..], b, id);
    }
  }

  lemma {:induction false} EndsOfFailures(order: seq<RequestId>, active: map<RequestId, Active>, id: RequestId)
    requires forall i, j :: 0 <= i < j < |order| ==> order[i] != order[j]
    ensures Ends(Failures(order, active), id) == One(id in order)
  {
    if order != [] {
      EndsOfFailures(order[1..], active, id);
      assert order == [order[0]] + order[1..];
      assert Failures(order, active)[1..] == Failures(order[1..], active);
    }
  }

  lemma {:induction false} NoEnds(items: seq<Item>, id: RequestId)
    requires forall i :: 0 <= i < |items| ==> !IsEnd(items[i], id)
    ensures Ends(items, id) == 0
  {
    if items != [] {
      NoEnds(items[1..], id);
    }
  }

  lemma EndsOfOne(a: Item, id: RequestId)
    ensures Ends([a], id) == One(IsEnd(a, id))
  {
    assert [a][1..] == [];
  }

  lemma EndsHead(items: seq<Item>, id: RequestId)
    requires items != []
    ensures Ends(items, id) == One(IsEnd(items[0], id)) + Ends(items[1..], id)
  {
  }

  function One(b: bool): nat { if b then 1 else 0 }

  /** Delivered, owed by a thread, or still in the map: once for every accepted id. */
  predicate OneOutcomeAt(d: Desk, id: RequestId) {
    Ends(d.log, id) + Ends(d.disp, id) + Ends(d.ext, id) + One(id in d.active) == One(id in d.accepted)
  }

  lemma OutcomeAdmit(d: Desk, x: RequestId, format: Format, sinks: set<Sink>, id: RequestId)
    requires OneOutcomeAt(d, id) && x !in d.accepted
    ensures OneOutcomeAt(Admit(d, x, format, sinks), id)
  {
  }

  lemma OutcomeComplete(d: Desk, x: RequestId, id: RequestId)
    requires OneOutcomeAt(d, id) && d.disp == []
    ensures OneOutcomeAt(Complete(d, x), id)
  {
    if x in d.active {
      var sinks := d.active[x].sinks;
      var first, last := Optional(OnMetadata in sinks, Call(x, Metadata)), Call(x, Completed(OnCompleted in sinks));
      EndsConcat(first, [last], id);
      NoEnds(first, id);
      EndsOfOne(last, id);
    }
  }

  lemma OutcomeCancel(d: Desk, x: RequestId, id: RequestId)
    requires OneOutcomeAt(d, id) && d.disp == []
    ensures OneOutcomeAt(Cancel(d, x), id)
  {
    if x in d.active {
      EndsOfOne(Call(x, Cancelled(OnCancelled in d.active[x].sinks)), id);
    }
  }

  lemma OutcomeDeliver(d: Desk, x: RequestId, size: nat, count: nat, id: RequestId)
    requires OneOutcomeAt(d, id) && d.disp == [] && x in d.active
    ensures OneOutcomeAt(Deliver(d, x, size, count), id)
  {
    var r := d.active[x];
    var text, audio := TextCalls(x, r), AudioCalls(x, r.sinks, size, r.next, count);
    NoEnds(text, id);
    NoEnds(audio, id);
    EndsConcat(text, audio, id);
  }

  lemma OutcomeHandle(d: Desk, e: Event, handled: bool, id: RequestId)
    requires OneOutcomeAt(d, id) && d.disp == []
    ensures OneOutcomeAt(HandleEvent(d, e, handled), id)
  {
    match e
    case StartedEvent(x, _) =>
      if x in d.active {
        NoEnds(TextCalls(x, d.active[x]), id);
      }
    case AudioEvent(x, size) =>
      EndsOfOne(FailOne(x), id);
      if x in d.active {
        OutcomeDeliver(d, x, size, CountOf(d.active[x].format, size), id);
      }
    case CompletedEvent(x) => OutcomeComplete(d, x, id);
    case CancelledEvent(x) => OutcomeCancel(d, x, id);
    case WorkerErrorEvent(x) =>
      EndsOfOne(FailAll, id);
      EndsOfOne(FailOne(x), id);
    case LocalErrorEvent => EndsOfOne(FailAll, id);
    case OtherEvent =>
  }

  lemma OutcomeCall(d: Desk, t: Thread, order: seq<RequestId>, id: RequestId)
    requires OneOutcomeAt(d, id) && Todo(d, t) != [] && Todo(d, t)[0].Call?
    ensures OneOutcomeAt(Execute(d, t, order), id)
  {
    EndsHead(Todo(d, t), id);
    EndsConcat(d.log, [Todo(d, t)[0]], id);
    EndsOfOne(Todo(d, t)[0], id);
  }

  lemma OutcomeFailOne(d: Desk, t: Thread, order: seq<RequestId>, id: RequestId)
    requires OneOutcomeAt(d, id) && Todo(d, t) != [] && Todo(d, t)[0].FailOne?
    ensures OneOutcomeAt(Execute(d, t, order), id)
  {
    var x := Todo(d, t)[0].id;
    var failed := Call(x, Failed(Told(d.active, x)));
    EndsHead(Todo(d, t), id);
    EndsConcat([failed], Todo(d, t)[1..], id);
    EndsOfOne(failed, id);
  }

  lemma OutcomeFailAll(d: Desk, t: Thread, order: seq<RequestId>, id: RequestId)
    requires OneOutcomeAt(d, id) && Todo(d, t) != [] && Todo(d, t)[0].FailAll? && Enumerates(order, d.active)
    ensures OneOutcomeAt(Execute(d, t, order), id)
  {
    EndsHead(Todo(d, t), id);
    EndsConcat(Failures(order, d.active), Todo(d, t)[1..], id);
    EndsOfFailures(order, d.active, id);
  }

  lemma OutcomeExecute(d: Desk, t: Thread, order: seq<RequestId>, id: RequestId)
    requires OneOutcomeAt(d, id) && Todo(d, t) != []
    requires Todo(d, t)[0].FailAll? ==> Enumerates(order, d.active)
    ensures OneOutcomeAt(Execute(d, t, order), id)
  {
    match Todo(d, t)[0]
    case Call(_, _) => OutcomeCall(d, t, order, id);
    case FailOne(_) => OutcomeFailOne(d, t, order, id);
    case FailAll => OutcomeFailAll(d, t, order, id);
    case EndStop => EndsHead(Todo(d, t), id);
  }

  lemma OutcomeStop(d: Desk, t: Thread, id: RequestId)
    requires OneOutcomeAt(d, id)
    ensures OneOutcomeAt(BeginStop(d, t), id)
  {
    EndsConcat([FailAll, EndStop], Todo(d, t), id);
    NoEnds([FailAll, EndStop], id);
  }

  // ----- stop -----

  /** Every stop in the list fails what is left before it ends; `empty` says that nothing is. */
  predicate Armed(items: seq<Item>, empty: bool) {
    items == [] ||
    (if items[0].FailAll? then Armed(items[1..], true)
     else (items[0].EndStop? ==> empty) && Armed(items[1..], empty))
  }

  predicate NoStops(items: seq<Item>) {
    forall i :: 0 <= i < |items| ==> !items[i].EndStop?
  }

  predicate IsEmpty(d: Desk) { d.active == map[] }

  /** Nothing is accepted any more once a stop is under way. */
  predicate StopOk(d: Desk, running: bool) {
    && Armed(d.disp, IsEmpty(d)) && Armed(d.ext, IsEmpty(d))
    && (running ==> NoStops(d.disp) && NoStops(d.ext))
  }

  lemma {:induction false} ArmedMore(items: seq<Item>, empty: bool)
    requires Armed(items, empty)
    ensures Armed(items, true)
  {
    if items != [] {
      ArmedMore(items[1..], empty || items[0].FailAll?);
    }
  }

  lemma {:induction false} ArmedFree(items: seq<Item>, empty: bool)
    requires NoStops(items)
    ensures Armed(items, empty)
  {
    if items != [] {
      ArmedFree(items[1..], empty || items[0].FailAll?);
    }
  }

  lemma {:induction false} FailuresAreCalls(order: seq<RequestId>, active: map<RequestId, Active>)
    ensures |Failures(order, active)| == |order|
    ensures forall i :: 0 <= i < |order| ==> Failures(order, active)[i] == Call(order[i], Failed(Told(active, order[i])))
  {
    if order != [] {
      FailuresAreCalls(order[1..], active);
    }
  }

  lemma {:induction false} ArmedAfterCalls(calls: seq<Item>, rest: seq<Item>, empty: bool)
    requires Armed(rest, empty) && forall i :: 0 <= i < |calls| ==> calls[i].Call?
    ensures Armed(calls + rest, empty)
  {
    if calls == [] {
      assert calls + rest == rest;
    } else {
      ArmedAfterCalls(calls[1..], rest, empty);
      assert (calls + rest)[1..] == calls[1..] + rest;
    }
  }

  lemma StopHandle(d: Desk, e: Event, handled: bool, running: bool)
    requires StopOk(d, running) && d.disp == []
    ensures StopOk(HandleEvent(d, e, handled), running)
  {
    var after := HandleEvent(d, e, handled);
    HandleFrame(d, e, handled);
    ArmedFree(after.disp, IsEmpty(after));
    if IsEmpty(after) {
      ArmedMore(d.ext, IsEmpty(d));
    }
  }

  /** A handler adds no stop and no request, and leaves the other thread alone. */
  lemma HandleFrame(d: Desk, e: Event, handled: bool)
    requires d.disp == []
    ensures var after := HandleEvent(d, e, handled);
      && NoStops(after.disp) && after.ext == d.ext && after.log == d.log && after.accepted == d.accepted
      && (IsEmpty(d) ==> IsEmpty(after))
      && (forall id :: id in after.active ==> id in d.active)
  {
    if e.AudioEvent? && e.id in d.active {
      DeliverFrame(d, e.id, e.size, CountOf(d.active[e.id].format, e.size));
    }
  }

  lemma DeliverFrame(d: Desk, x: RequestId, size: nat, count: nat)
    requires x in d.active
    ensures var after := Deliver(d, x, size, count);
      && NoStops(after.disp) && after.ext == d.ext && after.log == d.log && after.accepted == d.accepted
      && after.active.Keys == d.active.Keys
  {
  }

  lemma ExecuteFrame(d: Desk, t: Thread, order: seq<RequestId>)
    requires Todo(d, t) != []
    ensures Execute(d, t, order).accepted == d.accepted
  {
  }

  /** The list of the other thread, and what is left of this one. */
  lemma StopLists(d: Desk, t: Thread, running: bool)
    requires StopOk(d, running) && Todo(d, t) != []
    ensures Armed(d.disp, true) && Armed(d.ext, true)
    ensures var rest := Todo(d, t)[1..];
      Armed(rest, IsEmpty(d) || Todo(d, t)[0].FailAll?) && Armed(rest, true) && (running ==> NoStops(rest))
  {
    ArmedMore(d.disp, IsEmpty(d));
    ArmedMore(d.ext, IsEmpty(d));
    ArmedMore(Todo(d, t)[1..], IsEmpty(d) || Todo(d, t)[0].FailAll?);
  }

  lemma StopFailOne(d: Desk, t: Thread, order: seq<RequestId>, running: bool)
    requires StopOk(d, running) && Todo(d, t) != [] && Todo(d, t)[0].FailOne?
    ensures StopOk(Execute(d, t, order), running)
  {
    var x, rest, empty := Todo(d, t)[0].id, Todo(d, t)[1..], IsEmpty(d);
    StopLists(d, t, running);
    ArmedAfterCalls([Call(x, Failed(Told(d.active, x)))], rest, empty);
    ArmedAfterCalls([Call(x, Failed(Told(d.active, x)))], rest, true);
    assert empty ==> x !in d.active;
  }

  lemma StopFailAll(d: Desk, t: Thread, order: seq<RequestId>, running: bool)
    requires StopOk(d, running) && Todo(d, t) != [] && Todo(d, t)[0].FailAll?
    ensures StopOk(Execute(d, t, order), running)
  {
    StopLists(d, t, running);
    FailuresAreCalls(order, d.active);
    ArmedAfterCalls(Failures(order, d.active), Todo(d, t)[1..], true);
  }

  lemma StopExecute(d: Desk, t: Thread, order: seq<RequestId>, running: bool)
    requires StopOk(d, running) && Todo(d, t) != []
    ensures StopOk(Execute(d, t, order), running)
    ensures Todo(d, t)[0].EndStop? ==> IsEmpty(d) && IsEmpty(Execute(d, t, order))
  {
    match Todo(d, t)[0]
    case FailOne(_) => StopFailOne(d, t, order, running);
    case FailAll => StopFailAll(d, t, order, running);
    case _ => StopLists(d, t, running);
  }

  lemma StopBegin(d: Desk, t: Thread, running: bool)
    requires StopOk(d, running)
    ensures StopOk(BeginStop(d, t), false)
  {
    var todo := Todo(d, t);
    ArmedMore(todo, IsEmpty(d));
    assert ([FailAll, EndStop] + todo)[1..] == [EndStop] + todo && ([EndStop] + todo)[1..] == todo;
  }
}
