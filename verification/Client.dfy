/** One session of the client: user calls, the writer, the dispatcher and stop, interleaved
    at lock regions and callbacks; and the client joined to the worker. */
module Client {
  import opened Basics
  import opened Pcm
  import Out = ClientOutbound
  import opened ClientDispatch
  import opened ClientStream
  import opened ClientHand
  import Order = ClientOrder

  datatype Client = Client(
    limits: Out.Limits, pipe: Out.Pipe, desk: Desk,
    running: bool, stopping: bool, session: bool, failureHandled: bool, dispDone: bool, stopReturned: bool)

  function Started(limits: Out.Limits): Client {
    Client(limits, Out.FRESH, EMPTY, true, false, true, false, false, false)
  }

  datatype Label =
    | Synthesize(requested: RequestId, bytes: nat, format: Format, sinks: set<Sink>) | CancelRequest(id: RequestId, bytes: nat)
    | WriterTake | WriterSend(ok: bool)
    | Handle(e: Event) | Exec(t: Thread, order: seq<RequestId>) | Stop(t: Thread) | DispatcherExit

  /** An outside stop joins the dispatcher before it fails what is left; the dispatcher itself
      stops the client only from inside a callback. */
  predicate Enabled(c: Client, l: Label) {
    match l
    case Synthesize(requested, _, _, _) => c.running && !c.stopping && c.session && requested <= Out.MAX_ID
    case CancelRequest(id, _) => c.running && !c.stopping && c.session && id != 0 && id in c.desk.active
    case WriterTake => c.pipe.hand.None? && c.pipe.queue != []
    case WriterSend(_) => c.pipe.hand.Some?
    case Handle(_) => c.desk.disp == [] && c.session && !c.dispDone
    case Exec(t, order) =>
      Todo(c.desk, t) != [] &&
      (Todo(c.desk, t)[0].FailAll? ==> Enumerates(order, c.desk.active) && (t.External? ==> c.dispDone))
    case Stop(t) => t.Dispatcher? ==> !c.dispDone && c.desk.at.Some? && !TakingOut(c.desk)
    case DispatcherExit => c.desk.disp == [] && !c.dispDone && (c.stopping || !c.session)
  }

  function Submitted(c: Client, requested: RequestId, bytes: nat): RequestId {
    Out.SubmittedId(c.limits, c.pipe, requested, requested in c.desk.active, bytes)
  }

  function Submit(c: Client, requested: RequestId, bytes: nat, format: Format, sinks: set<Sink>): Client {
    var id := Submitted(c, requested, bytes);
    c.(pipe := Out.Submit(c.limits, c.pipe, requested, requested in c.desk.active, bytes),
       desk := if id == 0 then c.desk else Admit(c.desk, id, format, sinks))
  }

  /** Flags and queue as a stop or a local failure leaves them. */
  function Halted(c: Client): Client {
    c.(running := false, stopping := true, pipe := Out.Cleared(c.pipe))
  }

  /** No callback has begun yet for a new event. */
  function Idle(d: Desk): Desk { d.(at := None) }

  function HandleOne(c: Client, e: Event): Client {
    var next := c.(desk := HandleEvent(Idle(c.desk), e, c.failureHandled));
    if e.LocalErrorEvent? && !c.failureHandled then Halted(next).(failureHandled := true) else next
  }

  function ExecuteOne(c: Client, t: Thread, order: seq<RequestId>): Client
    requires Todo(c.desk, t) != []
  {
    var next := c.(desk := Execute(c.desk, t, order));
    if Todo(c.desk, t)[0].EndStop?
    then next.(session := false, pipe := Out.Cleared(c.pipe), stopping := false, running := false,
               failureHandled := false, stopReturned := true)
    else next
  }

  function Apply(c: Client, l: Label): Client
    requires Enabled(c, l)
  {
    match l
    case Synthesize(requested, bytes, format, sinks) => Submit(c, requested, bytes, format, sinks)
    case CancelRequest(id, bytes) => c.(pipe := Out.Offer(c.limits, c.pipe, Out.Command(id, false, bytes)))
    case WriterTake => c.(pipe := Out.Take(c.pipe, c.session))
    case WriterSend(ok) => c.(pipe := Out.Send(c.pipe, ok))
    case Handle(e) => HandleOne(c, e)
    case Exec(t, order) => ExecuteOne(c, t, order)
    case Stop(t) => Halted(c.(desk := BeginStop(c.desk, t)))
    case DispatcherExit => c.(dispDone := true)
  }

  function Step(c: Client, l: Label): Client {
    if Enabled(c, l) then Apply(c, l) else c
  }

  function Run(limits: Out.Limits, schedule: seq<Label>): Client {
    if schedule == [] then Started(limits)
    else Step(Run(limits, schedule[..|schedule| - 1]), schedule[|schedule| - 1])
  }

  // ----- the outbound half -----

  predicate PipeOk(c: Client) { Out.IdsOk(c.pipe) && Out.BytesOk(c.limits, c.pipe) }

  lemma PipeSubmit(c: Client, requested: RequestId, bytes: nat, format: Format, sinks: set<Sink>)
    requires PipeOk(c) && requested <= Out.MAX_ID
    ensures PipeOk(Submit(c, requested, bytes, format, sinks))
  {
    var taken := requested in c.desk.active;
    Out.IdsSubmit(c.limits, c.pipe, requested, taken, bytes);
    Out.BytesOffer(c.limits, c.pipe, Out.Command(Out.Allocate(c.pipe.next, requested, taken).id, true, bytes));
  }

  lemma PipeCancel(c: Client, id: RequestId, bytes: nat)
    requires PipeOk(c)
    ensures PipeOk(c.(pipe := Out.Offer(c.limits, c.pipe, Out.Command(id, false, bytes))))
  {
    Out.IdsOffer(c.limits, c.pipe, Out.Command(id, false, bytes));
    Out.BytesOffer(c.limits, c.pipe, Out.Command(id, false, bytes));
  }

  /** The other half leaves the queue alone or clears it. */
  lemma PipeInbound(c: Client, l: Label)
    requires Enabled(c, l) && (l.Handle? || l.Exec? || l.Stop? || l.DispatcherExit?)
    ensures Apply(c, l).pipe == c.pipe || Apply(c, l).pipe == Out.Cleared(c.pipe)
    ensures Apply(c, l).limits == c.limits
  {
  }

  lemma PipeCleared(limits: Out.Limits, pipe: Out.Pipe)
    requires Out.IdsOk(pipe)
    ensures Out.IdsOk(Out.Cleared(pipe)) && Out.BytesOk(limits, Out.Cleared(pipe))
  {
    Out.IdsClear(pipe);
  }

  lemma PipeWriter(c: Client, l: Label)
    requires PipeOk(c) && Enabled(c, l) && (l.WriterTake? || l.WriterSend?)
    ensures PipeOk(Apply(c, l))
  {
    if l.WriterTake? {
      Out.IdsTake(c.pipe, c.session);
    } else {
      Out.IdsSend(c.pipe, l.ok);
    }
  }

  lemma PipeStep(c: Client, l: Label)
    requires PipeOk(c) && Enabled(c, l)
    ensures PipeOk(Apply(c, l)) && Apply(c, l).limits == c.limits
  {
    match l
    case Synthesize(requested, bytes, format, sinks) => PipeSubmit(c, requested, bytes, format, sinks);
    case CancelRequest(id, bytes) => PipeCancel(c, id, bytes);
    case WriterTake => PipeWriter(c, l);
    case WriterSend(_) => PipeWriter(c, l);
    case _ =>
      PipeInbound(c, l);
      PipeCleared(c.limits, c.pipe);
  }

  lemma {:induction false} RunPipe(limits: Out.Limits, schedule: seq<Label>)
    ensures PipeOk(Run(limits, schedule)) && Run(limits, schedule).limits == limits
  {
    if schedule != [] {
      var c, l := Run(limits, schedule[..|schedule| - 1]), schedule[|schedule| - 1];
      RunPipe(limits, schedule[..|schedule| - 1]);
      if Enabled(c, l) {
        PipeStep(c, l);
      }
    }
  }

  /** Over every run, with failed enqueues, dropped sends and cleared queues: the ids of the
      synthesize commands sent are non-zero, strictly increasing and never wrap around. */
  lemma SentIdsIncrease(limits: Out.Limits, schedule: seq<Label>, i: nat, j: nat)
    requires i < j < |Run(limits, schedule).pipe.sent|
    ensures var sent := Run(limits, schedule).pipe.sent; 0 < sent[i] < sent[j] <= Out.MAX_ID
  {
    RunPipe(limits, schedule);
    var p := Run(limits, schedule).pipe;
    assert Out.Line(p)[i] == p.sent[i] && Out.Line(p)[j] == p.sent[j];
  }

  /** The byte count of the queue is exact and both limits hold, so that taking a command
      never saturates. */
  lemma QueueAccounted(limits: Out.Limits, schedule: seq<Label>)
    ensures var p := Run(limits, schedule).pipe;
      && p.queuedBytes == Out.Bytes(p.queue) <= limits.bytes && |p.queue| <= limits.commands
      && (p.queue != [] ==> p.queue[0].bytes <= p.queuedBytes)
  {
    RunPipe(limits, schedule);
  }

  // ----- terminal outcomes -----

  predicate SpentAt(c: Client, id: RequestId) {
    id in c.desk.accepted ==> 0 < id <= Out.MAX_ID && (c.pipe.next != 0 ==> id < c.pipe.next)
  }

  predicate DeskOk(c: Client) {
    StopOk(c.desk, c.running) && (c.stopReturned ==> IsEmpty(c.desk) && !c.running)
  }

  /** Ids only rise, so a new one was not accepted before. */
  lemma SpentSubmit(c: Client, requested: RequestId, bytes: nat, format: Format, sinks: set<Sink>, id: RequestId)
    requires SpentAt(c, id) && SpentAt(c, Submitted(c, requested, bytes)) && PipeOk(c) && requested <= Out.MAX_ID
    ensures SpentAt(Submit(c, requested, bytes, format, sinks), id)
    ensures Submitted(c, requested, bytes) != 0 ==> Submitted(c, requested, bytes) !in c.desk.accepted
  {
    Out.AllocationRises(c.pipe.next, requested, requested in c.desk.active);
  }

  lemma SpentStep(c: Client, l: Label, id: RequestId)
    requires SpentAt(c, id) && PipeOk(c) && Enabled(c, l)
    requires l.Synthesize? ==> SpentAt(c, Submitted(c, l.requested, l.bytes))
    ensures SpentAt(Apply(c, l), id)
  {
    match l
    case Synthesize(requested, bytes, format, sinks) => SpentSubmit(c, requested, bytes, format, sinks, id);
    case Handle(e) => HandleFrame(Idle(c.desk), e, c.failureHandled);
    case Exec(t, order) => ExecuteFrame(c.desk, t, order);
    case _ =>
  }

  lemma OutcomeSubmit(c: Client, requested: RequestId, bytes: nat, format: Format, sinks: set<Sink>, id: RequestId)
    requires OneOutcomeAt(c.desk, id) && PipeOk(c) && requested <= Out.MAX_ID
    requires SpentAt(c, Submitted(c, requested, bytes))
    ensures OneOutcomeAt(Submit(c, requested, bytes, format, sinks).desk, id)
  {
    var x := Submitted(c, requested, bytes);
    SpentSubmit(c, requested, bytes, format, sinks, x);
    if x != 0 {
      OutcomeAdmit(c.desk, x, format, sinks, id);
    }
  }

  lemma OutcomeStep(c: Client, l: Label, id: RequestId)
    requires OneOutcomeAt(c.desk, id) && PipeOk(c) && Enabled(c, l)
    requires l.Synthesize? ==> SpentAt(c, Submitted(c, l.requested, l.bytes))
    ensures OneOutcomeAt(Apply(c, l).desk, id)
  {
    match l
    case Synthesize(requested, bytes, format, sinks) => OutcomeSubmit(c, requested, bytes, format, sinks, id);
    case Handle(e) => OutcomeHandle(Idle(c.desk), e, c.failureHandled, id);
    case Exec(t, order) => OutcomeExecute(c.desk, t, order, id);
    case Stop(t) => OutcomeStop(c.desk, t, id);
    case _ =>
  }

  lemma StopSubmit(c: Client, requested: RequestId, bytes: nat, format: Format, sinks: set<Sink>)
    requires DeskOk(c) && c.running
    ensures DeskOk(Submit(c, requested, bytes, format, sinks))
  {
    ArmedFree(c.desk.disp, false);
    ArmedFree(c.desk.ext, false);
  }

  lemma StopHandled(c: Client, e: Event)
    requires DeskOk(c) && c.desk.disp == []
    ensures DeskOk(HandleOne(c, e))
  {
    StopHandle(Idle(c.desk), e, c.failureHandled, c.running);
    HandleFrame(Idle(c.desk), e, c.failureHandled);
  }

  lemma StopStep(c: Client, l: Label)
    requires DeskOk(c) && Enabled(c, l)
    ensures DeskOk(Apply(c, l))
  {
    match l
    case Synthesize(requested, bytes, format, sinks) => StopSubmit(c, requested, bytes, format, sinks);
    case Handle(e) => StopHandled(c, e);
    case Exec(t, order) => StopExecute(c.desk, t, order, c.running);
    case Stop(t) => StopBegin(c.desk, t, c.running);
    case _ =>
  }

  ghost predicate Inv(c: Client) {
    PipeOk(c) && DeskOk(c) && (forall id :: SpentAt(c, id)) && (forall id :: OneOutcomeAt(c.desk, id))
  }

  lemma {:induction false} RunInv(limits: Out.Limits, schedule: seq<Label>)
    ensures Inv(Run(limits, schedule))
  {
    if schedule != [] {
      var c, l := Run(limits, schedule[..|schedule| - 1]), schedule[|schedule| - 1];
      RunInv(limits, schedule[..|schedule| - 1]);
      if Enabled(c, l) {
        PipeStep(c, l);
        StopStep(c, l);
        forall id ensures SpentAt(Apply(c, l), id) {
          SpentStep(c, l, id);
        }
        forall id ensures OneOutcomeAt(Apply(c, l).desk, id) {
          OutcomeStep(c, l, id);
        }
      }
    }
  }

  /** For every sequence of calls and events, re-entrant stops included: only accepted
      requests get a terminal callback, and none gets two. */
  lemma AtMostOneOutcome(limits: Out.Limits, schedule: seq<Label>, id: RequestId)
    ensures var d := Run(limits, schedule).desk; Ends(d.log, id) <= One(id in d.accepted)
  {
    RunInv(limits, schedule);
    assert OneOutcomeAt(Run(limits, schedule).desk, id);
  }

  /** Once a stop has returned and no thread owes a callback, every accepted request has
      had exactly one; nothing is active and nothing more is accepted. */
  lemma ExactlyOneAfterStop(limits: Out.Limits, schedule: seq<Label>, id: RequestId)
    requires var c := Run(limits, schedule); c.stopReturned && c.desk.disp == [] && c.desk.ext == []
    ensures var c := Run(limits, schedule);
      IsEmpty(c.desk) && !c.running && Ends(c.desk.log, id) == One(id in c.desk.accepted)
  {
    RunInv(limits, schedule);
    assert OneOutcomeAt(Run(limits, schedule).desk, id);
  }

  // ----- the callback that runs -----

  lemma KnownStep(c: Client, l: Label)
    requires Known(c.desk) && Enabled(c, l)
    ensures Known(Apply(c, l).desk)
  {
    match l
    case Synthesize(requested, bytes, format, sinks) =>
      KnownAdmit(c.desk, Submitted(c, requested, bytes), format, sinks);
    case Handle(e) => KnownHandle(Idle(c.desk), e, c.failureHandled);
    case Exec(t, order) => KnownExecute(c.desk, t, order);
    case Stop(t) => KnownStop(c.desk, t);
    case _ =>
  }

  predicate CalmOk(c: Client) { Calm(c.desk, c.dispDone, c.running) }

  lemma CalmExec(c: Client, t: Thread, order: seq<RequestId>)
    requires CalmOk(c) && Enabled(c, Exec(t, order))
    ensures CalmOk(ExecuteOne(c, t, order))
  {
    if t.External? {
      CalmOutside(c.desk, order, c.dispDone, c.running);
    } else {
      CalmInside(c.desk, order, c.dispDone, c.running);
    }
  }

  lemma CalmStep(c: Client, l: Label)
    requires CalmOk(c) && Enabled(c, l)
    ensures CalmOk(Apply(c, l))
  {
    match l
    case Synthesize(requested, bytes, format, sinks) =>
      CalmAdmit(c.desk, Submitted(c, requested, bytes), format, sinks, c.dispDone);
    case Handle(e) => CalmHandle(Idle(c.desk), e, c.failureHandled, c.running);
    case Exec(t, order) => CalmExec(c, t, order);
    case Stop(t) => CalmStop(c.desk, t, c.dispDone, c.running);
    case _ =>
  }

  lemma HandExec(c: Client, t: Thread, order: seq<RequestId>, id: RequestId)
    requires Alone(c.desk) && InHand(c.desk, id) && Todo(c.desk, t) != []
    ensures InHand(Execute(c.desk, t, order), id)
  {
    if t.External? {
      HandOutside(c.desk, order, id);
    } else if c.desk.disp[0].Call? {
      HandCall(c.desk, order, id);
    } else {
      HandOther(c.desk, order, id);
    }
  }

  lemma HandStep(c: Client, l: Label, id: RequestId)
    requires Known(c.desk) && Alone(c.desk) && InHand(c.desk, id) && PipeOk(c) && Enabled(c, l)
    requires l.Synthesize? ==> SpentAt(c, Submitted(c, l.requested, l.bytes))
    ensures InHand(Apply(c, l).desk, id)
  {
    match l
    case Synthesize(requested, bytes, format, sinks) =>
      var x := Submitted(c, requested, bytes);
      SpentSubmit(c, requested, bytes, format, sinks, x);
      if x != 0 {
        HandAdmit(c.desk, x, format, sinks, id);
      }
    case Handle(e) => HandHandle(Idle(c.desk), e, c.failureHandled, id);
    case Exec(t, order) => HandExec(c, t, order, id);
    case Stop(t) => HandStop(c.desk, t, id);
    case _ =>
  }

  lemma AloneStep(c: Client, l: Label)
    requires Alone(c.desk) && Enabled(c, l)
    ensures Alone(Apply(c, l).desk)
  {
    match l
    case Handle(e) => AloneHandle(Idle(c.desk), e, c.failureHandled);
    case Exec(t, order) => AloneExecute(c.desk, t, order);
    case Stop(t) => AloneStop(c.desk, t);
    case _ =>
  }

  lemma {:induction false} RunHand(limits: Out.Limits, schedule: seq<Label>)
    ensures var c := Run(limits, schedule);
      Known(c.desk) && CalmOk(c) && Alone(c.desk) && forall id :: InHand(c.desk, id)
  {
    if schedule != [] {
      var c, l := Run(limits, schedule[..|schedule| - 1]), schedule[|schedule| - 1];
      RunHand(limits, schedule[..|schedule| - 1]);
      RunInv(limits, schedule[..|schedule| - 1]);
      if Enabled(c, l) {
        KnownStep(c, l);
        CalmStep(c, l);
        AloneStep(c, l);
        forall id ensures InHand(Apply(c, l).desk, id) {
          HandStep(c, l, id);
        }
      }
    }
  }

  /** In every run, wherever the dispatcher could stop the client: if an active request is
      still owed a callback, the running callback is the text of that request, or its audio
      with nothing but the timing of the same range to follow. */
  lemma CallbackRunning(limits: Out.Limits, schedule: seq<Label>, i: nat)
    requires Enabled(Run(limits, schedule), Stop(Dispatcher))
    requires var d := Run(limits, schedule).desk; i < |d.disp| && d.disp[i].Call? && d.disp[i].id in d.active
    ensures var d := Run(limits, schedule).desk;
      var at, id, sinks := d.at.value, d.disp[i].id, d.active[d.disp[i].id].sinks;
      && at.Call? && at.id == id
      && (at.kind.Text? || (at.kind.Audio? && d.disp == [Call(id, Timing(at.kind.first, at.kind.count))]))
      && (d.disp[i].kind.Audio? || d.disp[i].kind.Timing?) && (OnAudio in sinks || OnTiming in sinks)
  {
    RunHand(limits, schedule);
    var d := Run(limits, schedule).desk;
    assert InHand(d, d.disp[i].id);
    Running(d, i);
  }

  // ----- order -----

  /** Whenever the dispatcher stops the client, the event in hand owes no active request with
      an error callback a callback. */
  predicate Careful(limits: Out.Limits, schedule: seq<Label>) {
    schedule == [] ||
    var before, l := schedule[..|schedule| - 1], schedule[|schedule| - 1];
    Careful(limits, before) &&
    (l == Stop(Dispatcher) && Enabled(Run(limits, before), l) ==> Unowed(Run(limits, before).desk))
  }

  lemma GuardedSubmit(c: Client, requested: RequestId, bytes: nat, format: Format, sinks: set<Sink>)
    requires Known(c.desk) && Guarded(c.desk.disp, c.desk.active) && PipeOk(c) && requested <= Out.MAX_ID
    requires SpentAt(c, Submitted(c, requested, bytes))
    ensures var d := Submit(c, requested, bytes, format, sinks).desk; Guarded(d.disp, d.active)
  {
    var x := Submitted(c, requested, bytes);
    SpentSubmit(c, requested, bytes, format, sinks, x);
    if x != 0 {
      GuardedAdmit(c.desk, x, format, sinks);
    }
  }

  lemma GuardedStep(c: Client, l: Label)
    requires Known(c.desk) && Guarded(c.desk.disp, c.desk.active) && PipeOk(c) && Enabled(c, l)
    requires l == Stop(Dispatcher) ==> Unowed(c.desk)
    requires l.Synthesize? ==> SpentAt(c, Submitted(c, l.requested, l.bytes))
    ensures var d := Apply(c, l).desk; Guarded(d.disp, d.active)
  {
    match l
    case Synthesize(requested, bytes, format, sinks) => GuardedSubmit(c, requested, bytes, format, sinks);
    case Handle(e) => GuardedHandle(Idle(c.desk), e, c.failureHandled);
    case Exec(t, order) => GuardedExecute(c.desk, t, order);
    case Stop(t) =>
      if t.Dispatcher? {
        GuardedStop(c.desk);
      }
    case _ =>
  }

  lemma OrderSubmit(c: Client, requested: RequestId, bytes: nat, format: Format, sinks: set<Sink>, id: RequestId)
    requires Known(c.desk) && InOrderAt(c.desk, id) && PipeOk(c) && requested <= Out.MAX_ID
    requires SpentAt(c, Submitted(c, requested, bytes))
    ensures InOrderAt(Submit(c, requested, bytes, format, sinks).desk, id)
  {
    var x := Submitted(c, requested, bytes);
    SpentSubmit(c, requested, bytes, format, sinks, x);
    if x != 0 {
      OrderAdmit(c.desk, x, format, sinks, id);
    }
  }

  lemma OrderStep(c: Client, l: Label, id: RequestId)
    requires Known(c.desk) && CalmOk(c) && Guarded(c.desk.disp, c.desk.active)
    requires InOrderAt(c.desk, id) && PipeOk(c) && Enabled(c, l)
    requires l.Synthesize? ==> SpentAt(c, Submitted(c, l.requested, l.bytes))
    ensures InOrderAt(Apply(c, l).desk, id)
  {
    match l
    case Synthesize(requested, bytes, format, sinks) => OrderSubmit(c, requested, bytes, format, sinks, id);
    case Handle(e) => OrderHandle(Idle(c.desk), e, c.failureHandled, id);
    case Exec(t, order) => OrderExecute(c.desk, t, order, c.dispDone, c.running, id);
    case Stop(t) => OrderStop(c.desk, t, id);
    case _ =>
  }

  lemma {:induction false} RunOrder(limits: Out.Limits, schedule: seq<Label>)
    requires Careful(limits, schedule)
    ensures var d := Run(limits, schedule).desk; Guarded(d.disp, d.active) && forall id :: InOrderAt(d, id)
  {
    if schedule != [] {
      var before, l := schedule[..|schedule| - 1], schedule[|schedule| - 1];
      var c := Run(limits, before);
      RunOrder(limits, before);
      RunInv(limits, before);
      RunHand(limits, before);
      if Enabled(c, l) {
        GuardedStep(c, l);
        forall id ensures InOrderAt(Apply(c, l).desk, id) {
          OrderStep(c, l, id);
        }
      }
    }
  }

  /** In every such run the callbacks of every request are in order: registered ones only, text
      at most once and before audio, chunks that tile the sample clock from zero with the
      timing of each behind it, and nothing after the terminal callback. */
  lemma CallbacksInOrder(limits: Out.Limits, schedule: seq<Label>, id: RequestId)
    requires Careful(limits, schedule)
    ensures Heard(Run(limits, schedule).desk, id).Some?
  {
    RunOrder(limits, schedule);
    var d := Run(limits, schedule).desk;
    assert InOrderAt(d, id);
    BrokenStays(d.disp, id);
    BrokenStays(d.ext, id);
  }

  /** So the chunks that a run delivers to a request follow one another without gap or overlap
      from zero, each with its own timing when both are registered. */
  lemma DeliveredTiles(limits: Out.Limits, schedule: seq<Label>, d: Desk, id: RequestId, j: nat)
    requires Careful(limits, schedule) && d == Run(limits, schedule).desk
    requires j < |d.log| && Order.IsChunk(d.log[j], id, Registered(d, id))
    ensures var log, sinks := d.log, Registered(d, id);
      && (Order.NoChunks(log, 0, j, id, sinks) ==> log[j].kind.first == 0)
      && (forall i :: 0 <= i < j && Order.IsChunk(log[i], id, sinks) && Order.NoChunks(log, i + 1, j, id, sinks) ==>
            log[j].kind.first == (log[i].kind.first + log[i].kind.count) % TWO64)
  {
    CallbacksInOrder(limits, schedule, id);
    TilesAt(d.log, j, id, Registered(d, id));
  }

  lemma TilesAt(log: seq<Item>, j: nat, id: RequestId, sinks: set<Sink>)
    requires Order.Ordered(log, id, sinks) && j < |log| && Order.IsChunk(log[j], id, sinks)
    ensures Order.NoChunks(log, 0, j, id, sinks) ==> log[j].kind.first == 0
    ensures forall i :: 0 <= i < j && Order.IsChunk(log[i], id, sinks) && Order.NoChunks(log, i + 1, j, id, sinks) ==>
      log[j].kind.first == (log[i].kind.first + log[i].kind.count) % TWO64
  {
    if Order.NoChunks(log, 0, j, id, sinks) {
      Order.FirstChunk(log, j, id, sinks);
    }
    forall i | 0 <= i < j && Order.IsChunk(log[i], id, sinks) && Order.NoChunks(log, i + 1, j, id, sinks)
      ensures log[j].kind.first == (log[i].kind.first + log[i].kind.count) % TWO64
    {
      Order.ChunksTile(log, i, j, id, sinks);
    }
  }

  // ----- the condition is exact -----

  /** A stop on the dispatcher has begun: nothing is active, or all of it is about to fail. */
  predicate Settled(c: Client) {
    !c.running && CalmOk(c) && (IsEmpty(c.desk) || (c.desk.disp != [] && c.desk.disp[0].FailAll?))
  }

  lemma SettledStep(c: Client, l: Label)
    requires Settled(c) && Enabled(c, l)
    ensures Settled(Apply(c, l))
  {
    CalmStep(c, l);
    if l.Handle? {
      HandleFrame(Idle(c.desk), l.e, c.failureHandled);
    }
  }

  /** A callback of the request is on its way that will come after its error. */
  predicate Doomed(c: Client, id: RequestId) {
    Settled(c) &&
    if IsEmpty(c.desk) then Track(Heard(c.desk, id), c.desk.disp, id) == None
    else Told(c.desk.active, id) && Owes(c.desk.disp[1..], id)
  }

  lemma DoomedCall(d: Desk, order: seq<RequestId>, id: RequestId)
    requires d.disp != [] && d.disp[0].Call? && Track(Heard(d, id), d.disp, id) == None
    ensures var after := Execute(d, Dispatcher, order); Track(Heard(after, id), after.disp, id) == None
  {
    TrackAppend(Some(Nothing(Registered(d, id))), d.log, d.disp[0], id);
  }

  /** With nothing active, the other items change no progress. */
  lemma DoomedOther(d: Desk, order: seq<RequestId>, id: RequestId)
    requires IsEmpty(d) && d.disp != [] && !d.disp[0].Call? && (d.disp[0].FailAll? ==> Enumerates(order, d.active))
    requires Track(Heard(d, id), d.disp, id) == None
    ensures var after := Execute(d, Dispatcher, order); Track(Heard(after, id), after.disp, id) == None
  {
    if d.disp[0].FailAll? {
      NothingToFail(order, d.active);
      assert Failures(order, d.active) + d.disp[1..] == d.disp[1..];
    }
  }

  lemma DoomedInside(c: Client, order: seq<RequestId>, id: RequestId)
    requires Doomed(c, id) && Enabled(c, Exec(Dispatcher, order))
    ensures Doomed(ExecuteOne(c, Dispatcher, order), id)
  {
    SettledStep(c, Exec(Dispatcher, order));
    if !IsEmpty(c.desk) {
      StopBreaks(c.desk, order, id);
    } else if c.desk.disp[0].Call? {
      DoomedCall(c.desk, order, id);
    } else {
      DoomedOther(c.desk, order, id);
    }
  }

  /** An outside stop makes callbacks only when the dispatcher has made its own. */
  lemma DoomedOutside(c: Client, order: seq<RequestId>, id: RequestId)
    requires Doomed(c, id) && Enabled(c, Exec(External, order))
    ensures Doomed(ExecuteOne(c, External, order), id)
  {
    SettledStep(c, Exec(External, order));
    if c.desk.ext[0].Call? {
      TrackAppend(Some(Nothing(Registered(c.desk, id))), c.desk.log, c.desk.ext[0], id);
    }
  }

  lemma DoomedStop(c: Client, t: Thread, id: RequestId)
    requires Doomed(c, id) && Enabled(c, Stop(t))
    ensures Doomed(Apply(c, Stop(t)), id)
  {
    SettledStep(c, Stop(t));
    var p := Heard(c.desk, id);
    TrackConcat(p, [FailAll, EndStop], c.desk.disp, id);
    TrackTwo(p, FailAll, EndStop, id);
  }

  lemma DoomedHandle(c: Client, e: Event, id: RequestId)
    requires Doomed(c, id) && Enabled(c, Handle(e))
    ensures Doomed(HandleOne(c, e), id)
  {
    SettledStep(c, Handle(e));
    HandleFrame(Idle(c.desk), e, c.failureHandled);
    BrokenStays(HandleOne(c, e).desk.disp, id);
  }

  lemma DoomedStep(c: Client, l: Label, id: RequestId)
    requires Doomed(c, id) && Enabled(c, l)
    ensures Doomed(Apply(c, l), id)
  {
    match l
    case Handle(e) => DoomedHandle(c, e, id);
    case Exec(t, order) =>
      if t.Dispatcher? {
        DoomedInside(c, order, id);
      } else {
        DoomedOutside(c, order, id);
      }
    case Stop(t) => DoomedStop(c, t, id);
    case _ => SettledStep(c, l);
  }

  lemma RunMore(limits: Out.Limits, schedule: seq<Label>, l: Label)
    ensures Run(limits, schedule + [l]) == Step(Run(limits, schedule), l)
  {
    assert (schedule + [l])[..|schedule|] == schedule;
  }

  lemma LastApart(schedule: seq<Label>, rest: seq<Label>)
    requires rest != []
    ensures schedule + rest == (schedule + rest[..|rest| - 1]) + [rest[|rest| - 1]]
  {
  }

  lemma {:induction false} StaysDoomed(limits: Out.Limits, schedule: seq<Label>, rest: seq<Label>, id: RequestId)
    requires Doomed(Run(limits, schedule), id)
    ensures Doomed(Run(limits, schedule + rest), id)
    decreases |rest|
  {
    if rest == [] {
      assert schedule + rest == schedule;
    } else {
      var before, l := schedule + rest[..|rest| - 1], rest[|rest| - 1];
      LastApart(schedule, rest);
      RunMore(limits, before, l);
      StaysDoomed(limits, schedule, rest[..|rest| - 1], id);
      if Enabled(Run(limits, before), l) {
        DoomedStep(Run(limits, before), l, id);
      }
    }
  }

  lemma CarefulStep(limits: Out.Limits, schedule: seq<Label>, l: Label)
    requires Careful(limits, schedule) && Settled(Run(limits, schedule))
    ensures Careful(limits, schedule + [l]) && Settled(Run(limits, schedule + [l]))
  {
    var c := Run(limits, schedule);
    assert (schedule + [l])[..|schedule|] == schedule;
    RunMore(limits, schedule, l);
    if Enabled(c, l) {
      SettledStep(c, l);
    }
    assert l == Stop(Dispatcher) && Enabled(c, l) ==> IsEmpty(c.desk);
  }

  /** Once a stop on the dispatcher has begun, no later one can do harm. */
  lemma {:induction false} StaysCareful(limits: Out.Limits, schedule: seq<Label>, rest: seq<Label>)
    requires Careful(limits, schedule) && Settled(Run(limits, schedule))
    ensures Careful(limits, schedule + rest) && Settled(Run(limits, schedule + rest))
    decreases |rest|
  {
    if rest == [] {
      assert schedule + rest == schedule;
    } else {
      LastApart(schedule, rest);
      StaysCareful(limits, schedule, rest[..|rest| - 1]);
      CarefulStep(limits, schedule + rest[..|rest| - 1], rest[|rest| - 1]);
    }
  }

  lemma StopSettles(limits: Out.Limits, schedule: seq<Label>)
    requires Enabled(Run(limits, schedule), Stop(Dispatcher))
    ensures var c := Run(limits, schedule);
      Run(limits, schedule + [Stop(Dispatcher)]) == Apply(c, Stop(Dispatcher)) && Settled(Apply(c, Stop(Dispatcher)))
  {
    var all := schedule + [Stop(Dispatcher)];
    assert all[..|all| - 1] == schedule;
    RunHand(limits, schedule);
    CalmStep(Run(limits, schedule), Stop(Dispatcher));
  }

  /** A stop while the event in hand owes an active request with an error callback a callback
      breaks the order of that request, whatever happens next, as soon as the dispatcher has
      done what it has left. */
  lemma StopBreaksOrder(limits: Out.Limits, schedule: seq<Label>, rest: seq<Label>, id: RequestId)
    requires Enabled(Run(limits, schedule), Stop(Dispatcher))
    requires var d := Run(limits, schedule).desk; Told(d.active, id) && Owes(d.disp, id)
    requires Run(limits, schedule + [Stop(Dispatcher)] + rest).desk.disp == []
    ensures Heard(Run(limits, schedule + [Stop(Dispatcher)] + rest).desk, id) == None
  {
    var d, stopped := Run(limits, schedule).desk, schedule + [Stop(Dispatcher)];
    StopSettles(limits, schedule);
    OwesBehind(d.disp, id);
    assert BeginStop(d, Dispatcher).disp[1..] == [EndStop] + d.disp;
    StaysDoomed(limits, stopped, rest, id);
  }

  lemma OwesBehind(items: seq<Item>, id: RequestId)
    requires Owes(items, id)
    ensures Owes([EndStop] + items, id)
  {
    var i :| 0 <= i < |items| && items[i].Call? && items[i].id == id;
    assert ([EndStop] + items)[i + 1] == items[i];
  }

  /** A stop that finds nothing owed keeps every order, whatever happens next. */
  lemma StopKeepsOrder(limits: Out.Limits, schedule: seq<Label>, rest: seq<Label>, id: RequestId)
    requires Careful(limits, schedule) && Enabled(Run(limits, schedule), Stop(Dispatcher))
    requires Unowed(Run(limits, schedule).desk)
    ensures Heard(Run(limits, schedule + [Stop(Dispatcher)] + rest).desk, id).Some?
  {
    var stopped := schedule + [Stop(Dispatcher)];
    assert stopped[..|stopped| - 1] == schedule;
    StopSettles(limits, schedule);
    StaysCareful(limits, stopped, rest);
    CallbacksInOrder(limits, stopped + rest, id);
  }

  /** Exactly when the order survives: a stop from a callback leaves every request's callbacks
      in order if and only if the event in hand owed no active request with an error callback
      a callback when it was called, for every continuation in which the dispatcher finishes
      that event. */
  lemma StopKeepsOrderIff(limits: Out.Limits, schedule: seq<Label>, rest: seq<Label>)
    requires Careful(limits, schedule) && Enabled(Run(limits, schedule), Stop(Dispatcher))
    requires Run(limits, schedule + [Stop(Dispatcher)] + rest).desk.disp == []
    ensures Unowed(Run(limits, schedule).desk) <==>
      forall id :: Heard(Run(limits, schedule + [Stop(Dispatcher)] + rest).desk, id).Some?
  {
    var d := Run(limits, schedule).desk;
    if Unowed(d) {
      forall id ensures Heard(Run(limits, schedule + [Stop(Dispatcher)] + rest).desk, id).Some? {
        StopKeepsOrder(limits, schedule, rest, id);
      }
    } else {
      var i :| 0 <= i < |d.disp| && d.disp[i].Call? && Told(d.active, d.disp[i].id);
      StopBreaksOrder(limits, schedule, rest, d.disp[i].id);
    }
  }

  /** In the caller's terms: stop is safe in every callback but the text of a request that
      registered audio or timing and the audio of one that registered timing. In on_timing,
      on_completion_metadata, on_completed, on_cancelled and on_error it always is. */
  lemma HarmlessStop(limits: Out.Limits, schedule: seq<Label>, rest: seq<Label>, id: RequestId)
    requires Careful(limits, schedule) && Enabled(Run(limits, schedule), Stop(Dispatcher))
    requires Harmless(Run(limits, schedule).desk)
    ensures Heard(Run(limits, schedule + [Stop(Dispatcher)] + rest).desk, id).Some?
  {
    RunHand(limits, schedule);
    var d := Run(limits, schedule).desk;
    forall x ensures Owing(d, x) {
      assert InHand(d, x);
    }
    HarmlessUnowed(d);
    StopKeepsOrder(limits, schedule, rest, id);
  }

  /** In the audio callback of an active request that registered timing and error, it never is. */
  lemma StopInAudioCallback(limits: Out.Limits, schedule: seq<Label>, rest: seq<Label>, id: RequestId)
    requires Enabled(Run(limits, schedule), Stop(Dispatcher))
    requires var d := Run(limits, schedule).desk;
      Told(d.active, id) && InAudio(d, id) && OnTiming in d.active[id].sinks
    requires Run(limits, schedule + [Stop(Dispatcher)] + rest).desk.disp == []
    ensures Heard(Run(limits, schedule + [Stop(Dispatcher)] + rest).desk, id) == None
  {
    RunHand(limits, schedule);
    var d := Run(limits, schedule).desk;
    assert InHand(d, id);
    assert d.disp[0].id == id;
    StopBreaksOrder(limits, schedule, rest, id);
  }

  // ----- an input that fails -----

  function Execs(n: nat): seq<Label> {
    if n == 0 then [] else Execs(n - 1) + [Exec(Dispatcher, [])]
  }

  lemma DrainDesk(d: Desk)
    requires IsEmpty(d) && d.disp != []
    ensures var after := Execute(d, Dispatcher, []); IsEmpty(after) && |after.disp| == |d.disp| - 1
  {
    assert Failures([], d.active) == [];
  }

  lemma DrainOne(c: Client)
    requires IsEmpty(c.desk) && c.desk.disp != []
    ensures Enabled(c, Exec(Dispatcher, [])) && Step(c, Exec(Dispatcher, [])).desk == Execute(c.desk, Dispatcher, [])
  {
    assert Enumerates([], c.desk.active);
  }

  /** Nothing is active and the dispatcher has n things left. */
  predicate Leaves(c: Client, n: nat) { IsEmpty(c.desk) && |c.desk.disp| == n }

  lemma DrainMore(limits: Out.Limits, schedule: seq<Label>, left: nat)
    requires Leaves(Run(limits, schedule), left) && left > 0
    ensures Leaves(Run(limits, schedule + [Exec(Dispatcher, [])]), left - 1)
  {
    RunMore(limits, schedule, Exec(Dispatcher, []));
    DrainOne(Run(limits, schedule));
    DrainDesk(Run(limits, schedule).desk);
  }

  lemma ExecsLast(schedule: seq<Label>, n: nat)
    requires n > 0
    ensures schedule + Execs(n) == (schedule + Execs(n - 1)) + [Exec(Dispatcher, [])]
  {
  }

  /** With nothing active, the dispatcher can do all it has left. */
  lemma {:induction false} DrainRun(limits: Out.Limits, schedule: seq<Label>, all: seq<Label>, left: nat, n: nat)
    requires Leaves(Run(limits, schedule), left) && n <= left && all == schedule + Execs(n)
    ensures Leaves(Run(limits, all), left - n)
    decreases n
  {
    if n == 0 {
      assert all == schedule;
    } else {
      var before := schedule + Execs(n - 1);
      DrainRun(limits, schedule, before, left, n - 1);
      DrainMore(limits, before, left - (n - 1));
      ExecsLast(schedule, n);
    }
  }

  lemma StopTakes(c: Client, order: seq<RequestId>)
    requires Enabled(c, Stop(Dispatcher)) && Enumerates(order, c.desk.active)
    ensures var next := Step(Apply(c, Stop(Dispatcher)), Exec(Dispatcher, order));
      IsEmpty(next.desk) && |next.desk.disp| == |order| + 1 + |c.desk.disp|
  {
    FailuresAreCalls(order, c.desk.active);
    assert Apply(c, Stop(Dispatcher)).desk.disp[0].FailAll?;
  }

  lemma StopTakesRun(limits: Out.Limits, schedule: seq<Label>, order: seq<RequestId>)
    requires Enabled(Run(limits, schedule), Stop(Dispatcher)) && Enumerates(order, Run(limits, schedule).desk.active)
    ensures var d := Run(limits, schedule + [Stop(Dispatcher)] + [Exec(Dispatcher, order)]).desk;
      IsEmpty(d) && |d.disp| == |order| + 1 + |Run(limits, schedule).desk.disp|
  {
    RunMore(limits, schedule, Stop(Dispatcher));
    RunMore(limits, schedule + [Stop(Dispatcher)], Exec(Dispatcher, order));
    StopTakes(Run(limits, schedule), order);
  }

  /** After any stop on the dispatcher some continuation finishes the event in hand. */
  lemma StopDrains(limits: Out.Limits, schedule: seq<Label>, order: seq<RequestId>, left: nat)
    requires Enabled(Run(limits, schedule), Stop(Dispatcher)) && Enumerates(order, Run(limits, schedule).desk.active)
    requires left == |order| + 1 + |Run(limits, schedule).desk.disp|
    ensures Run(limits, schedule + [Stop(Dispatcher)] + ([Exec(Dispatcher, order)] + Execs(left))).desk.disp == []
  {
    StopTakesRun(limits, schedule, order);
    DrainsFrom(limits, schedule + [Stop(Dispatcher)], [Exec(Dispatcher, order)], left);
  }

  lemma DrainsFrom(limits: Out.Limits, stopped: seq<Label>, take: seq<Label>, left: nat)
    requires Leaves(Run(limits, stopped + take), left)
    ensures Run(limits, stopped + (take + Execs(left))).desk.disp == []
  {
    assert stopped + (take + Execs(left)) == (stopped + take) + Execs(left);
    DrainRun(limits, stopped + take, stopped + (take + Execs(left)), left, left);
  }

  const MONO := Format("s16le", 24000, 1)

  const LISTENING := {OnText, OnAudio, OnError}

  /** One request, its first two bytes of audio, and the text callback. */
  const TEXT_OF_AUDIO := [Synthesize(0, 64, MONO, LISTENING), Handle(AudioEvent(1, 2)), Exec(Dispatcher, [])]

  lemma RunPrefix(limits: Out.Limits, schedule: seq<Label>, i: nat)
    requires i < |schedule|
    ensures Run(limits, schedule[..i + 1]) == Step(Run(limits, schedule[..i]), schedule[i])
  {
    assert schedule[..i + 1][..i] == schedule[..i];
  }

  lemma TextOfAudioRun(limits: Out.Limits)
    requires limits.commands > 0 && limits.bytes >= 64
    ensures var c := Run(limits, TEXT_OF_AUDIO);
      && c.desk.disp == [Call(1, Audio(0, 1))] && c.desk.at == Some(Call(1, Text)) && !c.dispDone
      && c.desk.active == map[1 := Active(MONO, 1, true, LISTENING)] && c.desk.log == [Call(1, Text)]
  {
    var c1 := Step(Started(limits), TEXT_OF_AUDIO[0]);
    assert c1.desk.active == map[1 := Active(MONO, 0, false, LISTENING)];
    assert WholeFrames(2, 2) == Some(1);
    var c2 := Step(c1, TEXT_OF_AUDIO[1]);
    assert c2.desk.disp == [Call(1, Text), Call(1, Audio(0, 1))];
    RunPrefix(limits, TEXT_OF_AUDIO, 0);
    RunPrefix(limits, TEXT_OF_AUDIO, 1);
    RunPrefix(limits, TEXT_OF_AUDIO, 2);
    assert TEXT_OF_AUDIO[..0] == [] && TEXT_OF_AUDIO[..3] == TEXT_OF_AUDIO;
  }

  /** A stop inside that text callback: the run delivers audio after the terminal error. */
  lemma StopInTextCallback(limits: Out.Limits, rest: seq<Label>)
    requires limits.commands > 0 && limits.bytes >= 64 && rest == [Exec(Dispatcher, [1])] + Execs(3)
    ensures Heard(Run(limits, TEXT_OF_AUDIO + [Stop(Dispatcher)] + rest).desk, 1) == None
  {
    TextOfAudioRun(limits);
    var d := Run(limits, TEXT_OF_AUDIO).desk;
    assert d.disp[0].id == 1;
    assert Enumerates([1], d.active);
    StopDrains(limits, TEXT_OF_AUDIO, [1], 3);
    StopBreaksOrder(limits, TEXT_OF_AUDIO, rest, 1);
  }

  /** A stop inside the last callback of an event, such as the text of a Started event, is
      harmless. */
  lemma StopInLastCallback(limits: Out.Limits, schedule: seq<Label>, rest: seq<Label>, id: RequestId)
    requires Careful(limits, schedule) && Enabled(Run(limits, schedule), Stop(Dispatcher))
    requires Run(limits, schedule).desk.disp == []
    ensures Heard(Run(limits, schedule + [Stop(Dispatcher)] + rest).desk, id).Some?
  {
    StopKeepsOrder(limits, schedule, rest, id);
  }
}
