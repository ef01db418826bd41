/** The order of one request's callbacks: registered ones only, text once and before audio,
    chunks that tile the sample clock from zero, each with its timing, then one terminal
    callback and nothing after it. A stop inside a callback keeps it exactly when no active
    request that registered an error callback is still owed one for the event in hand. */
module ClientStream {
  import opened Basics
  import opened Pcm
  import opened ClientDispatch

  /** How far the callbacks of a request have come; `owed` is the timing of the last audio. */
  datatype Progress = Progress(sinks: set<Sink>, text: bool, next: nat, owed: Option<Kind>, meta: bool, done: bool)

  function Nothing(sinks: set<Sink>): Progress { Progress(sinks, false, 0, None, false, false) }

  /** Neither ended nor ending, and no timing outstanding. */
  predicate Open(p: Progress) { !p.done && !p.meta && p.owed.None? }

  /** A chunk comes after the text and starts where the one before it ended. */
  predicate Fits(p: Progress, first: nat, count: nat) {
    Open(p) && (OnText in p.sinks ==> p.text) && first == p.next && count != 0
  }

  function Moved(p: Progress, count: nat): Progress { p.(next := (p.next + count) % TWO64) }

  /** An outcome is told exactly when a callback is registered for it; untold it changes nothing. */
  function Ended(p: Progress, told: bool, sink: Sink): Option<Progress> {
    if p.done || told != (sink in p.sinks) then None
    else if !told then Some(p)
    else if p.owed.Some? || (p.meta && sink != OnCompleted) then None
    else Some(p.(done := true))
  }

  /** The next callback of a request, None when it would be out of order. */
  function Accept(p: Progress, kind: Kind): Option<Progress> {
    match kind
    case Text => if Open(p) && OnText in p.sinks && !p.text then Some(p.(text := true)) else None
    case Audio(first, count) =>
      if OnAudio !in p.sinks || !Fits(p, first, count) then None
      else Some(Moved(p, count).(owed := if OnTiming in p.sinks then Some(Timing(first, count)) else None))
    case Timing(first, count) =>
      if OnTiming !in p.sinks then None
      else if OnAudio in p.sinks then (if p.owed == Some(kind) && !p.done then Some(p.(owed := None)) else None)
      else if Fits(p, first, count) then Some(Moved(p, count)) else None
    case Metadata => if Open(p) && OnMetadata in p.sinks then Some(p.(meta := true)) else None
    case Completed(told) => Ended(p, told, OnCompleted)
    case Cancelled(told) => Ended(p, told, OnCancelled)
    case Failed(told) => Ended(p, told, OnError)
  }

  function Advance(p: Option<Progress>, item: Item, id: RequestId): Option<Progress> {
    if p.None? || !item.Call? || item.id != id then p else Accept(p.value, item.kind)
  }

  /** The callbacks of request `id` in a list, from progress p on. */
  function Track(p: Option<Progress>, items: seq<Item>, id: RequestId): Option<Progress>
    decreases |items|
  {
    if items == [] then p else Track(Advance(p, items[0], id), items[1..], id)
  }

  lemma {:induction false} TrackAppend(p: Option<Progress>, items: seq<Item>, item: Item, id: RequestId)
    ensures Track(p, items + [item], id) == Advance(Track(p, items, id), item, id)
    decreases |items|
  {
    if items == [] {
      assert (items + [item])[1..] == [];
    } else {
      assert (items + [item])[1..] == items[1..] + [item];
      TrackAppend(Advance(p, items[0], id), items[1..], item, id);
    }
  }

  lemma {:induction false} TrackConcat(p: Option<Progress>, a: seq<Item>, b: seq<Item>, id: RequestId)
    ensures Track(p, a + b, id) == Track(Track(p, a, id), b, id)
    decreases |a|
  {
    if a == [] {
      assert a + b == b;
    } else {
      assert (a + b)[1..] == a[1..] + b;
      TrackConcat(Advance(p, a[0], id), a[1..], b, id);
    }
  }

  predicate NoCalls(items: seq<Item>) {
    forall i :: 0 <= i < |items| ==> !items[i].Call?
  }

  /** Some callback of request `id` is in the list. */
  predicate Owes(items: seq<Item>, id: RequestId) {
    exists i :: 0 <= i < |items| && items[i].Call? && items[i].id == id
  }

  lemma {:induction false} TrackOthers(p: Option<Progress>, items: seq<Item>, id: RequestId)
    requires !Owes(items, id)
    ensures Track(p, items, id) == p
    decreases |items|
  {
    if items != [] {
      assert forall i :: 0 <= i < |items[1..]| ==> items[1..][i] == items[i + 1];
      TrackOthers(p, items[1..], id);
    }
  }

  lemma TrackNoCalls(p: Option<Progress>, items: seq<Item>, id: RequestId)
    requires NoCalls(items)
    ensures Track(p, items, id) == p
  {
    TrackOthers(p, items, id);
  }

  lemma {:induction false} TrackFailures(
      p: Option<Progress>, order: seq<RequestId>, active: map<RequestId, Active>, id: RequestId)
    requires forall i, j :: 0 <= i < j < |order| ==> order[i] != order[j]
    ensures Track(p, Failures(order, active), id) ==
      if id in order then Advance(p, Call(id, Failed(Told(active, id))), id) else p
    decreases |order|
  {
    if order != [] {
      TrackFailures(Advance(p, Call(order[0], Failed(Told(active, order[0]))), id), order[1..], active, id);
      assert order == [order[0]] + order[1..];
      assert Failures(order, active)[1..] == Failures(order[1..], active);
    }
  }

  function Registered(d: Desk, id: RequestId): set<Sink> { if id in d.accepted then d.accepted[id] else {} }

  /** Progress over what was delivered. */
  function Heard(d: Desk, id: RequestId): Option<Progress> { Track(Some(Nothing(Registered(d, id))), d.log, id) }

  /** Progress over what was delivered and what is owed. */
  function Reached(d: Desk, id: RequestId): Option<Progress> { Track(Track(Heard(d, id), d.disp, id), d.ext, id) }

  /** The progress of an active request is what its map entry says. */
  predicate Tells(p: Progress, r: Active) {
    && p.sinks == r.sinks && Open(p) && p.text == (r.texted && OnText in r.sinks)
    && (OnAudio in r.sinks || OnTiming in r.sinks ==> p.next == r.next)
    && r.next < TWO64
  }

  predicate InOrderAt(d: Desk, id: RequestId) {
    Reached(d, id).Some? && (id in d.active ==> id in d.accepted && Tells(Reached(d, id).value, d.active[id]))
  }

  predicate TakesOut(item: Item) { item.FailAll? || item.FailOne? }

  /** No request is taken out of the map and told before a callback that it is still owed. */
  predicate Guarded(items: seq<Item>, active: map<RequestId, Active>) {
    forall i, j :: 0 <= i < j < |items| && TakesOut(items[i]) && items[j].Call? ==> !Told(active, items[j].id)
  }

  /** No active request with an error callback is owed a callback for the event in hand. */
  predicate Unowed(d: Desk) {
    forall i :: 0 <= i < |d.disp| && d.disp[i].Call? ==> !Told(d.active, d.disp[i].id)
  }

  predicate OfAccepted(items: seq<Item>, accepted: map<RequestId, set<Sink>>) {
    forall i :: 0 <= i < |items| && items[i].Call? ==> items[i].id in accepted
  }

  /** Only accepted requests are active, owed or called back. */
  predicate Known(d: Desk) {
    && (forall id :: id in d.active ==> id in d.accepted)
    && OfAccepted(d.log, d.accepted) && OfAccepted(d.disp, d.accepted) && OfAccepted(d.ext, d.accepted)
    && (d.at.Some? ==> d.at.value.Call? && d.at.value.id in d.accepted)
  }

  predicate NoSingles(items: seq<Item>) {
    forall i :: 0 <= i < |items| ==> !items[i].FailOne?
  }

  /** Who may still add callbacks: an outside stop only after the dispatcher has left. */
  predicate Calm(d: Desk, dispDone: bool, running: bool) {
    && (dispDone ==> d.disp == [])
    && (d.ext != [] ==> !running)
    && (NoCalls(d.ext) || (dispDone && IsEmpty(d))) && NoSingles(d.ext)
  }

  // ----- steps -----

  lemma OrderAdmit(d: Desk, x: RequestId, format: Format, sinks: set<Sink>, id: RequestId)
    requires InOrderAt(d, id) && Known(d) && x !in d.accepted
    ensures InOrderAt(Admit(d, x, format, sinks), id)
  {
    if id == x {
      var p := Some(Nothing(sinks));
      TrackOthers(p, d.log, x);
      TrackOthers(p, d.disp, x);
      TrackOthers(p, d.ext, x);
    }
  }

  /** With the dispatcher idle and no callbacks owed outside, new callbacks come last. */
  lemma ReachedAfter(d: Desk, calls: seq<Item>, id: RequestId)
    requires d.disp == [] && NoCalls(d.ext)
    ensures Reached(d.(disp := calls), id) == Track(Reached(d, id), calls, id)
  {
    TrackNoCalls(Heard(d, id), d.ext, id);
    TrackNoCalls(Track(Heard(d, id), calls, id), d.ext, id);
  }

  lemma TrackOne(p: Option<Progress>, a: Item, id: RequestId)
    ensures Track(p, [a], id) == Advance(p, a, id)
  {
    assert [a][1..] == [];
  }

  lemma TrackTwo(p: Option<Progress>, a: Item, b: Item, id: RequestId)
    ensures Track(p, [a, b], id) == Advance(Advance(p, a, id), b, id)
  {
    assert [a, b][1..] == [b];
    TrackOne(Advance(p, a, id), b, id);
  }

  lemma TrackOptional(p: Option<Progress>, wanted: bool, a: Item, id: RequestId)
    ensures Track(p, Optional(wanted, a), id) == if wanted then Advance(p, a, id) else p
  {
    TrackOne(p, a, id);
  }

  lemma OrderComplete(d: Desk, x: RequestId, id: RequestId)
    requires InOrderAt(d, id) && d.disp == [] && NoCalls(d.ext)
    ensures InOrderAt(Complete(d, x), id)
  {
    if x in d.active {
      var sinks, p := d.active[x].sinks, Reached(d, id);
      var first, last := Optional(OnMetadata in sinks, Call(x, Metadata)), Call(x, Completed(OnCompleted in sinks));
      ReachedAfter(d, first + [last], id);
      TrackConcat(p, first, [last], id);
      TrackOptional(p, OnMetadata in sinks, Call(x, Metadata), id);
      TrackOne(Track(p, first, id), last, id);
    }
  }

  lemma OrderCancel(d: Desk, x: RequestId, id: RequestId)
    requires InOrderAt(d, id) && d.disp == [] && NoCalls(d.ext)
    ensures InOrderAt(Cancel(d, x), id)
  {
    if x in d.active {
      var last := Call(x, Cancelled(OnCancelled in d.active[x].sinks));
      ReachedAfter(d, [last], id);
      TrackOne(Reached(d, id), last, id);
    }
  }

  lemma OrderStarted(d: Desk, x: RequestId, format: Format, id: RequestId)
    requires InOrderAt(d, id) && d.disp == [] && NoCalls(d.ext)
    ensures InOrderAt(HandleStarted(d, x, format), id)
  {
    if x in d.active {
      var r := d.active[x];
      ReachedAfter(d, TextCalls(x, r), id);
      TrackOptional(Reached(d, id), !r.texted && OnText in r.sinks, Call(x, Text), id);
    }
  }

  lemma TrackText(p: Progress, x: RequestId, r: Active)
    requires Tells(p, r)
    ensures var q := Track(Some(p), TextCalls(x, r), x); q.Some? && Tells(q.value, r.(texted := true))
  {
    TrackOptional(Some(p), !r.texted && OnText in r.sinks, Call(x, Text), x);
  }

  lemma TrackAudio(p: Progress, x: RequestId, r: Active, size: nat, count: nat)
    requires Tells(p, r) && r.texted && (count == 0 <==> size == 0)
    ensures var q := Track(Some(p), AudioCalls(x, r.sinks, size, r.next, count), x);
      q.Some? && Tells(q.value, Played(r, count))
  {
    var a, b := OnAudio in r.sinks, OnTiming in r.sinks;
    var audio, timing := Call(x, Audio(r.next, count)), Call(x, Timing(r.next, count));
    var first, second := Optional(size != 0 && a, audio), Optional(size != 0 && count != 0 && b, timing);
    TrackConcat(Some(p), first, second, x);
    TrackOptional(Some(p), size != 0 && a, audio, x);
    TrackOptional(Track(Some(p), first, x), size != 0 && count != 0 && b, timing, x);
  }

  lemma TrackDelivered(p: Progress, x: RequestId, r: Active, size: nat, count: nat)
    requires Tells(p, r) && (count == 0 <==> size == 0)
    ensures var q := Track(Some(p), TextCalls(x, r) + AudioCalls(x, r.sinks, size, r.next, count), x);
      q.Some? && Tells(q.value, Played(r, count))
  {
    TrackConcat(Some(p), TextCalls(x, r), AudioCalls(x, r.sinks, size, r.next, count), x);
    TrackText(p, x, r);
    TrackAudio(Track(Some(p), TextCalls(x, r), x).value, x, r.(texted := true), size, count);
  }

  lemma OrderDeliver(d: Desk, x: RequestId, size: nat, count: nat, id: RequestId)
    requires InOrderAt(d, id) && d.disp == [] && NoCalls(d.ext) && x in d.active && (count == 0 <==> size == 0)
    ensures InOrderAt(Deliver(d, x, size, count), id)
  {
    var r, after := d.active[x], Deliver(d, x, size, count);
    ReachedAfter(d, after.disp, id);
    if id == x {
      TrackDelivered(Reached(d, x).value, x, r, size, count);
    } else {
      TrackOthers(Reached(d, id), after.disp, id);
    }
  }

  /** What the dispatcher still has to take out is not a callback yet. */
  lemma OrderPost(d: Desk, item: Item, id: RequestId)
    requires InOrderAt(d, id) && d.disp == [] && NoCalls(d.ext) && !item.Call?
    ensures InOrderAt(d.(disp := [item]), id)
  {
    ReachedAfter(d, [item], id);
    TrackOne(Reached(d, id), item, id);
  }

  lemma OrderHandle(d: Desk, e: Event, handled: bool, id: RequestId)
    requires InOrderAt(d, id) && d.disp == [] && NoCalls(d.ext)
    ensures InOrderAt(HandleEvent(d, e, handled), id)
  {
    match e
    case StartedEvent(x, format) => OrderStarted(d, x, format, id);
    case AudioEvent(x, size) =>
      if x in d.active {
        if size != 0 && SampleCount(d.active[x].format, size).None? {
          OrderPost(d, FailOne(x), id);
        } else {
          OrderDeliver(d, x, size, CountOf(d.active[x].format, size), id);
        }
      }
    case CompletedEvent(x) => OrderComplete(d, x, id);
    case CancelledEvent(x) => OrderCancel(d, x, id);
    case WorkerErrorEvent(x) => OrderPost(d, if x == 0 then FailAll else FailOne(x), id);
    case LocalErrorEvent => OrderPost(d, FailAll, id);
    case OtherEvent =>
  }

  lemma OrderCall(d: Desk, t: Thread, order: seq<RequestId>, id: RequestId)
    requires InOrderAt(d, id) && Todo(d, t) != [] && Todo(d, t)[0].Call? && (t.External? ==> d.disp == [])
    ensures InOrderAt(Execute(d, t, order), id)
  {
    TrackAppend(Some(Nothing(Registered(d, id))), d.log, Todo(d, t)[0], id);
  }

  /** A failure in front of the rest: either nobody is told, or nothing follows. */
  lemma TrackFail(p: Option<Progress>, told: bool, rest: seq<Item>, id: RequestId)
    requires Track(p, rest, id).Some? && (told ==> !Owes(rest, id))
    requires p.Some? ==> (told <==> OnError in p.value.sinks) && !p.value.done && (told ==> Open(p.value))
    ensures Track(Advance(p, Call(id, Failed(told)), id), rest, id).Some?
  {
    if p.None? {
      BrokenStays(rest, id);
    }
    if told {
      TrackOthers(p, rest, id);
      TrackOthers(Advance(p, Call(id, Failed(told)), id), rest, id);
    }
  }

  lemma {:induction false} SinksStay(p: Option<Progress>, items: seq<Item>, id: RequestId)
    ensures var q := Track(p, items, id); q.Some? ==> p.Some? && q.value.sinks == p.value.sinks
    decreases |items|
  {
    if items != [] {
      SinksStay(Advance(p, items[0], id), items[1..], id);
    }
  }

  /** What TrackFail asks for, when the dispatcher is about to take the active request out. */
  lemma BeforeFail(d: Desk, id: RequestId)
    requires InOrderAt(d, id) && d.disp != [] && TakesOut(d.disp[0]) && NoCalls(d.ext) && Guarded(d.disp, d.active)
    requires id in d.active
    ensures var p, told, rest := Heard(d, id), Told(d.active, id), d.disp[1..];
      && Track(p, rest, id).Some? && (told ==> !Owes(rest, id))
      && (p.Some? ==> (told <==> OnError in p.value.sinks) && !p.value.done && (told ==> Open(p.value)))
  {
    var p, told, rest := Heard(d, id), Told(d.active, id), d.disp[1..];
    assert forall j :: 0 <= j < |rest| ==> rest[j] == d.disp[j + 1];
    TrackNoCalls(Track(p, rest, id), d.ext, id);
    SinksStay(Some(Nothing(Registered(d, id))), d.log, id);
    SinksStay(p, rest, id);
    if !Owes(rest, id) {
      TrackOthers(p, rest, id);
    } else if p.Some? && p.value.done {
      TrackDone(p.value, rest, id);
    }
  }

  /** The dispatcher takes out one request, or finds it gone. */
  lemma OrderFailOne(d: Desk, order: seq<RequestId>, id: RequestId)
    requires InOrderAt(d, id) && d.disp != [] && d.disp[0].FailOne? && NoCalls(d.ext) && Guarded(d.disp, d.active)
    ensures InOrderAt(Execute(d, Dispatcher, order), id)
  {
    var x, rest, p := d.disp[0].id, d.disp[1..], Heard(d, id);
    if x in d.active {
      var failed := Call(x, Failed(Told(d.active, x)));
      TrackConcat(p, [failed], rest, id);
      TrackOne(p, failed, id);
      TrackNoCalls(Track(p, rest, id), d.ext, id);
      TrackNoCalls(Track(p, [failed] + rest, id), d.ext, id);
      if id == x {
        BeforeFail(d, id);
        TrackFail(p, Told(d.active, x), rest, id);
      }
    }
  }

  lemma OrderFailAll(d: Desk, order: seq<RequestId>, id: RequestId)
    requires InOrderAt(d, id) && d.disp != [] && d.disp[0].FailAll? && NoCalls(d.ext) && Guarded(d.disp, d.active)
    requires Enumerates(order, d.active)
    ensures InOrderAt(Execute(d, Dispatcher, order), id)
  {
    var rest, p := d.disp[1..], Heard(d, id);
    TrackConcat(p, Failures(order, d.active), rest, id);
    TrackFailures(p, order, d.active, id);
    TrackNoCalls(Track(p, rest, id), d.ext, id);
    TrackNoCalls(Track(p, Failures(order, d.active) + rest, id), d.ext, id);
    if id in d.active {
      BeforeFail(d, id);
      TrackFail(p, Told(d.active, id), rest, id);
    }
  }

  lemma NothingToFail(order: seq<RequestId>, active: map<RequestId, Active>)
    requires Enumerates(order, active)
    ensures order != [] ==> active != map[]
  {
    if order != [] {
      assert order[0] in active;
    }
  }

  /** An outside stop fails what is left, when the dispatcher has gone. */
  lemma OrderFailRest(d: Desk, order: seq<RequestId>, id: RequestId)
    requires InOrderAt(d, id) && d.disp == [] && d.ext != [] && d.ext[0].FailAll? && Enumerates(order, d.active)
    requires NoCalls(d.ext) || IsEmpty(d)
    ensures InOrderAt(Execute(d, External, order), id)
  {
    var p, rest := Heard(d, id), d.ext[1..];
    TrackConcat(p, Failures(order, d.active), rest, id);
    TrackFailures(p, order, d.active, id);
    if NoCalls(d.ext) {
      TrackNoCalls(p, d.ext, id);
      TrackNoCalls(Track(p, Failures(order, d.active), id), rest, id);
    } else {
      NothingToFail(order, d.active);
    }
  }

  lemma OrderExecute(d: Desk, t: Thread, order: seq<RequestId>, dispDone: bool, running: bool, id: RequestId)
    requires InOrderAt(d, id) && Calm(d, dispDone, running) && Guarded(d.disp, d.active) && Todo(d, t) != []
    requires Todo(d, t)[0].FailAll? ==> Enumerates(order, d.active) && (t.External? ==> dispDone)
    ensures InOrderAt(Execute(d, t, order), id)
  {
    var item := Todo(d, t)[0];
    if item.Call? {
      OrderCall(d, t, order, id);
    } else if t.Dispatcher? {
      if item.FailOne? {
        OrderFailOne(d, order, id);
      } else if item.FailAll? {
        OrderFailAll(d, order, id);
      }
    } else if item.FailAll? {
      OrderFailRest(d, order, id);
    }
  }

  lemma OrderStop(d: Desk, t: Thread, id: RequestId)
    requires InOrderAt(d, id)
    ensures InOrderAt(BeginStop(d, t), id)
  {
    var p := Heard(d, id);
    var q := if t.Dispatcher? then p else Track(p, d.disp, id);
    TrackConcat(q, [FailAll, EndStop], Todo(d, t), id);
    TrackTwo(q, FailAll, EndStop, id);
  }

  // ----- what every run keeps -----

  lemma KnownAdmit(d: Desk, x: RequestId, format: Format, sinks: set<Sink>)
    requires Known(d)
    ensures Known(Admit(d, x, format, sinks))
  {
  }

  lemma KnownHandle(d: Desk, e: Event, handled: bool)
    requires Known(d)
    ensures Known(HandleEvent(d, e, handled))
  {
  }

  lemma KnownFailures(order: seq<RequestId>, d: Desk, rest: seq<Item>)
    requires Known(d) && Enumerates(order, d.active) && OfAccepted(rest, d.accepted)
    ensures OfAccepted(Failures(order, d.active) + rest, d.accepted)
  {
    FailuresAreCalls(order, d.active);
  }

  lemma KnownExecute(d: Desk, t: Thread, order: seq<RequestId>)
    requires Known(d) && Todo(d, t) != [] && (Todo(d, t)[0].FailAll? ==> Enumerates(order, d.active))
    ensures Known(Execute(d, t, order))
  {
    var todo := Todo(d, t);
    assert OfAccepted(todo[1..], d.accepted);
    if todo[0].FailAll? {
      KnownFailures(order, d, todo[1..]);
    }
  }

  lemma KnownStop(d: Desk, t: Thread)
    requires Known(d)
    ensures Known(BeginStop(d, t))
  {
  }

  lemma CalmAdmit(d: Desk, x: RequestId, format: Format, sinks: set<Sink>, dispDone: bool)
    requires Calm(d, dispDone, true)
    ensures Calm(Admit(d, x, format, sinks), dispDone, true)
  {
  }

  lemma CalmHandle(d: Desk, e: Event, handled: bool, running: bool)
    requires Calm(d, false, running) && d.disp == []
    ensures Calm(HandleEvent(d, e, handled), false, running)
  {
    HandleFrame(d, e, handled);
  }

  lemma CalmInside(d: Desk, order: seq<RequestId>, dispDone: bool, running: bool)
    requires Calm(d, dispDone, running) && d.disp != []
    ensures Calm(Execute(d, Dispatcher, order), dispDone, running)
  {
  }

  lemma CalmOutside(d: Desk, order: seq<RequestId>, dispDone: bool, running: bool)
    requires Calm(d, dispDone, running) && d.ext != [] && (d.ext[0].FailAll? ==> dispDone)
    ensures Calm(Execute(d, External, order), dispDone, running)
  {
    FailuresAreCalls(order, d.active);
  }

  lemma CalmStop(d: Desk, t: Thread, dispDone: bool, running: bool)
    requires Calm(d, dispDone, running) && (t.Dispatcher? ==> !dispDone)
    ensures Calm(BeginStop(d, t), dispDone, false)
  {
  }

  // ----- what runs keep whose stops meet the guard -----

  lemma GuardedAdmit(d: Desk, x: RequestId, format: Format, sinks: set<Sink>)
    requires Guarded(d.disp, d.active) && Known(d) && x !in d.accepted
    ensures Guarded(d.disp, Admit(d, x, format, sinks).active)
  {
  }

  lemma GuardedHandle(d: Desk, e: Event, handled: bool)
    requires d.disp == []
    ensures var after := HandleEvent(d, e, handled); Guarded(after.disp, after.active)
  {
  }

  lemma GuardedExecute(d: Desk, t: Thread, order: seq<RequestId>)
    requires Guarded(d.disp, d.active) && Todo(d, t) != []
    ensures var after := Execute(d, t, order); Guarded(after.disp, after.active)
  {
    if t.Dispatcher? {
      GuardedInside(d, order);
    }
  }

  lemma GuardedTail(items: seq<Item>, active: map<RequestId, Active>)
    requires Guarded(items, active) && items != []
    ensures Guarded(items[1..], active)
  {
  }

  lemma GuardedInside(d: Desk, order: seq<RequestId>)
    requires Guarded(d.disp, d.active) && d.disp != []
    ensures var after := Execute(d, Dispatcher, order); Guarded(after.disp, after.active)
  {
    GuardedTail(d.disp, d.active);
    if d.disp[0].FailOne? {
      GuardedFailOne(d, d.disp[0].id, d.disp[1..]);
    }
  }

  lemma GuardedFailOne(d: Desk, x: RequestId, rest: seq<Item>)
    requires Guarded(rest, d.active)
    ensures var after := ExecuteFailOne(d, Dispatcher, x, rest); Guarded(after.disp, after.active)
  {
  }

  lemma GuardedStop(d: Desk)
    requires Guarded(d.disp, d.active) && Unowed(d)
    ensures Guarded(BeginStop(d, Dispatcher).disp, d.active)
  {
  }

  // ----- a stop while the event in hand owes callbacks -----

  lemma {:induction false} TrackDone(p: Progress, items: seq<Item>, id: RequestId)
    requires p.done && Owes(items, id)
    ensures Track(Some(p), items, id) == None
    decreases |items|
  {
    var q := Advance(Some(p), items[0], id);
    assert forall i :: 0 <= i < |items[1..]| ==> items[1..][i] == items[i + 1];
    if q.None? {
      BrokenStays(items[1..], id);
    } else {
      var i :| 0 <= i < |items| && items[i].Call? && items[i].id == id;
      assert items[1..][i - 1] == items[i];
      TrackDone(p, items[1..], id);
    }
  }

  lemma {:induction false} BrokenStays(items: seq<Item>, id: RequestId)
    ensures Track(None, items, id) == None
    decreases |items|
  {
    if items != [] {
      BrokenStays(items[1..], id);
    }
  }

  /** The stop fails the request at once; the callback it was owed comes after its error. */
  lemma StopBreaks(d: Desk, order: seq<RequestId>, id: RequestId)
    requires d.disp != [] && d.disp[0].FailAll? && Enumerates(order, d.active)
    requires Told(d.active, id) && Owes(d.disp[1..], id)
    ensures var after := Execute(d, Dispatcher, order); IsEmpty(after) && Track(Heard(after, id), after.disp, id) == None
  {
    var p, rest := Heard(d, id), d.disp[1..];
    TrackConcat(p, Failures(order, d.active), rest, id);
    TrackFailures(p, order, d.active, id);
    var q := Advance(p, Call(id, Failed(true)), id);
    if q.None? {
      BrokenStays(rest, id);
    } else {
      TrackDone(q.value, rest, id);
    }
  }
}
