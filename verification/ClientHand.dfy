/** Which callback is running: while an active request is owed a callback for the event in
    hand, the dispatcher is inside the text or audio callback of that same request. */
module ClientHand {
  import opened Basics
  import opened Pcm
  import opened ClientDispatch
  import opened ClientStream

  /** The callbacks of one chunk from place i on: text first, timing last and with the range of
      its audio, and each of them registered. */
  predicate MediaAt(items: seq<Item>, i: nat, id: RequestId, sinks: set<Sink>)
    requires i < |items|
  {
    items[i].Call? && items[i].id == id &&
    match items[i].kind
    case Text => i == 0 && OnText in sinks
    case Audio(first, count) =>
      OnAudio in sinks && items[i + 1..] == Optional(OnTiming in sinks, Call(id, Timing(first, count)))
    case Timing(_, _) => i + 1 == |items| && OnTiming in sinks
    case _ => false
  }

  predicate Media(items: seq<Item>, id: RequestId, sinks: set<Sink>) {
    forall i :: 0 <= i < |items| ==> MediaAt(items, i, id, sinks)
  }

  predicate NoText(items: seq<Item>) {
    forall i :: 0 <= i < |items| && items[i].Call? ==> !items[i].kind.Text?
  }

  /** What may be left of the event in hand inside callback `at`. */
  predicate LeftIn(at: Item, items: seq<Item>, id: RequestId) {
    at.Call? && at.id == id &&
    match at.kind
    case Text => NoText(items)
    case Audio(first, count) => items == [Call(id, Timing(first, count))]
    case _ => false
  }

  /** The dispatcher is about to take requests out of the map, so no callback is running. */
  predicate TakingOut(d: Desk) { d.disp != [] && TakesOut(d.disp[0]) }

  predicate Owing(d: Desk, id: RequestId) {
    id in d.active && Owes(d.disp, id) && !TakingOut(d) ==>
      Media(d.disp, id, d.active[id].sinks) && (d.at.Some? ==> LeftIn(d.at.value, d.disp, id))
  }

  predicate InAudio(d: Desk, id: RequestId) {
    d.at.Some? && d.at.value.Call? && d.at.value.id == id && d.at.value.kind.Audio?
  }

  /** Inside an audio callback with timing registered, its timing is what is left. */
  predicate TimingNext(d: Desk, id: RequestId) {
    id in d.active && InAudio(d, id) && OnTiming in d.active[id].sinks && !TakingOut(d) ==>
      d.disp == [Call(id, Timing(d.at.value.kind.first, d.at.value.kind.count))]
  }

  predicate InHand(d: Desk, id: RequestId) { Owing(d, id) && TimingNext(d, id) }

  /** One request is taken out by itself and between callbacks. */
  predicate Alone(d: Desk) {
    forall i :: 0 <= i < |d.disp| && TakesOut(d.disp[i]) ==> i == 0 && (d.disp[i].FailOne? ==> |d.disp| == 1 && d.at.None?)
  }

  // ----- steps -----

  lemma HandAdmit(d: Desk, x: RequestId, format: Format, sinks: set<Sink>, id: RequestId)
    requires InHand(d, id) && Known(d) && x !in d.accepted
    ensures InHand(Admit(d, x, format, sinks), id)
  {
  }

  lemma AloneHandle(d: Desk, e: Event, handled: bool)
    requires d.disp == [] && d.at.None?
    ensures Alone(HandleEvent(d, e, handled))
  {
  }

  lemma MediaAudio(x: RequestId, sinks: set<Sink>, size: nat, first: nat, count: nat)
    requires count == 0 <==> size == 0
    ensures Media(AudioCalls(x, sinks, size, first, count), x, sinks)
    ensures NoText(AudioCalls(x, sinks, size, first, count))
  {
  }

  lemma MediaBehindText(x: RequestId, sinks: set<Sink>, audio: seq<Item>)
    requires Media(audio, x, sinks) && OnText in sinks && NoText(audio)
    ensures Media([Call(x, Text)] + audio, x, sinks)
  {
    var all := [Call(x, Text)] + audio;
    forall i | 0 <= i < |all| ensures MediaAt(all, i, x, sinks) {
      if i > 0 {
        assert MediaAt(audio, i - 1, x, sinks);
        assert all[i + 1..] == audio[i..];
      }
    }
  }

  lemma MediaChunk(x: RequestId, r: Active, size: nat, count: nat)
    requires count == 0 <==> size == 0
    ensures Media(TextCalls(x, r) + AudioCalls(x, r.sinks, size, r.next, count), x, r.sinks)
  {
    var audio := AudioCalls(x, r.sinks, size, r.next, count);
    MediaAudio(x, r.sinks, size, r.next, count);
    if !r.texted && OnText in r.sinks {
      MediaBehindText(x, r.sinks, audio);
    } else {
      assert TextCalls(x, r) + audio == audio;
    }
  }

  lemma HandDeliver(d: Desk, x: RequestId, size: nat, count: nat, id: RequestId)
    requires d.disp == [] && d.at.None? && x in d.active && (count == 0 <==> size == 0)
    ensures InHand(Deliver(d, x, size, count), id)
  {
    var disp := Deliver(d, x, size, count).disp;
    MediaChunk(x, d.active[x], size, count);
    if Owes(disp, id) {
      var i :| 0 <= i < |disp| && disp[i].Call? && disp[i].id == id;
      assert MediaAt(disp, i, x, d.active[x].sinks);
    }
  }

  lemma HandHandle(d: Desk, e: Event, handled: bool, id: RequestId)
    requires d.disp == [] && d.at.None?
    ensures InHand(HandleEvent(d, e, handled), id)
  {
    if e.AudioEvent? && e.id in d.active && !(e.size != 0 && SampleCount(d.active[e.id].format, e.size).None?) {
      HandDeliver(d, e.id, e.size, CountOf(d.active[e.id].format, e.size), id);
    }
  }

  lemma AloneExecute(d: Desk, t: Thread, order: seq<RequestId>)
    requires Alone(d) && Todo(d, t) != []
    ensures Alone(Execute(d, t, order))
  {
    FailuresAreCalls(order, d.active);
  }

  /** What is left of a chunk once its first callback is made. */
  lemma MediaRest(items: seq<Item>, id: RequestId, sinks: set<Sink>)
    requires items != [] && Media(items, id, sinks)
    ensures items[0].Call? && IsTold(items[0].kind) && Media(items[1..], id, sinks)
    ensures items[1..] != [] ==> LeftIn(items[0], items[1..], id)
    ensures items[0].kind.Audio? && OnTiming in sinks ==>
      items[1..] == [Call(id, Timing(items[0].kind.first, items[0].kind.count))]
  {
    var rest := items[1..];
    assert MediaAt(items, 0, id, sinks);
    forall i | 0 <= i < |rest| ensures MediaAt(rest, i, id, sinks) && !rest[i].kind.Text? {
      assert MediaAt(items, i + 1, id, sinks);
      assert rest[i + 1..] == items[i + 2..];
    }
  }

  lemma OwesMore(items: seq<Item>, id: RequestId)
    requires items != [] && Owes(items[1..], id)
    ensures Owes(items, id)
  {
    var i :| 0 <= i < |items[1..]| && items[1..][i].Call? && items[1..][i].id == id;
    assert items[i + 1] == items[1..][i];
  }

  /** A callback is made. */
  lemma HandCall(d: Desk, order: seq<RequestId>, id: RequestId)
    requires InHand(d, id) && Alone(d) && d.disp != [] && d.disp[0].Call?
    ensures InHand(Execute(d, Dispatcher, order), id)
  {
    var rest := d.disp[1..];
    assert rest != [] ==> rest[0] == d.disp[1];
    if Owes(rest, id) {
      OwesMore(d.disp, id);
    }
    if id in d.active && Owes(d.disp, id) {
      MediaRest(d.disp, id, d.active[id].sinks);
    }
  }

  /** One request is taken out, or all of them, or a stop ends. */
  lemma HandOther(d: Desk, order: seq<RequestId>, id: RequestId)
    requires InHand(d, id) && Alone(d) && d.disp != [] && !d.disp[0].Call?
    ensures InHand(Execute(d, Dispatcher, order), id)
  {
    if id in d.active {
      assert !MediaAt(d.disp, 0, id, d.active[id].sinks);
      if d.disp[0].EndStop? && Owes(d.disp[1..], id) {
        OwesMore(d.disp, id);
      }
    }
  }

  lemma HandOutside(d: Desk, order: seq<RequestId>, id: RequestId)
    requires InHand(d, id) && d.ext != []
    ensures InHand(Execute(d, External, order), id)
  {
  }

  lemma AloneStop(d: Desk, t: Thread)
    requires Alone(d) && (t.Dispatcher? ==> !TakingOut(d))
    ensures Alone(BeginStop(d, t))
  {
  }

  lemma HandStop(d: Desk, t: Thread, id: RequestId)
    requires InHand(d, id)
    ensures InHand(BeginStop(d, t), id)
  {
  }

  // ----- in the caller's terms -----

  /** Nothing of its own event can be left behind the running callback, going by what its
      request registered. */
  predicate Harmless(d: Desk) {
    d.at.Some? && d.at.value.Call? && Told(d.active, d.at.value.id) ==>
      var sinks := d.active[d.at.value.id].sinks;
      match d.at.value.kind
      case Text => OnAudio !in sinks && OnTiming !in sinks
      case Audio(_, _) => OnTiming !in sinks
      case _ => true
  }

  /** A callback owed to an active request is of the same request as the running one. */
  lemma Running(d: Desk, i: nat)
    requires d.at.Some? && !TakingOut(d) && i < |d.disp| && d.disp[i].Call? && d.disp[i].id in d.active
    requires Owing(d, d.disp[i].id)
    ensures var at, next := d.at.value, d.disp[i];
      && at.Call? && at.id == next.id
      && (at.kind.Text? || (at.kind.Audio? && d.disp == [Call(next.id, Timing(at.kind.first, at.kind.count))]))
    ensures var sinks := d.active[d.disp[i].id].sinks;
      match d.disp[i].kind
      case Audio(_, _) => OnAudio in sinks
      case Timing(_, _) => OnTiming in sinks
      case _ => false
  {
    assert MediaAt(d.disp, i, d.disp[i].id, d.active[d.disp[i].id].sinks);
  }

  lemma HarmlessUnowed(d: Desk)
    requires d.at.Some? && !TakingOut(d) && Harmless(d) && forall id :: Owing(d, id)
    ensures Unowed(d)
  {
    forall i | 0 <= i < |d.disp| && d.disp[i].Call? ensures !Told(d.active, d.disp[i].id) {
      if d.disp[i].id in d.active {
        Running(d, i);
      }
    }
  }
}
