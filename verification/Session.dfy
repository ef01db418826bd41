/** The worker session after start: which frames it lets through in which state, and its
    bounded event queue. One step is one lock region. */
module Session {
  type RequestId = nat

  datatype Phase = Starting | Ready | Failed | Exited | Stopping | Stopped

  datatype Message = ReadyMessage | Pong | ShutdownAck | Queued | Started | Completed | Cancelled

  /** `size` is the payload size that the queue accounts for. */
  datatype Event =
    | Control(id: RequestId, m: Message, size: nat) | Audio(id: RequestId, size: nat)
    | WorkerError(id: RequestId, size: nat) | Overflow(size: nat)
    | Diagnostic(size: nat) | ExitStatus(size: nat)

  datatype Limits = Limits(events: nat, bytes: nat, overflowSize: nat)

  /** An event that ever entered the queue, and whether the limits applied to it. */
  datatype Entry = Entry(e: Event, regular: bool)

  /** `history` lists every event that entered the queue. */
  datatype Session = Session(
    phase: Phase, events: seq<Event>, bytes: nat, overflowed: bool, shutdownRequested: bool, history: seq<Entry>)

  const FRESH := Session(Starting, [], 0, false, false, [])

  // ----- the queue -----

  predicate Full(l: Limits, s: Session, size: nat) {
    |s.events| >= l.events || size > l.bytes || s.bytes > l.bytes - size
  }

  function Append(s: Session, e: Event, regular: bool): Session {
    s.(events := s.events + [e], bytes := s.bytes + e.size, history := s.history + [Entry(e, regular)])
  }

  predicate Live(p: Phase) { p.Starting? || p.Ready? }

  function Down(s: Session): Session { if Live(s.phase) then s.(phase := Failed) else s }

  /** The first regular event that does not fit is replaced by one diagnostic; later regular
      events are dropped, exempt ones always enter. */
  function Enqueue(l: Limits, s: Session, e: Event, exempt: bool): Session {
    if exempt then Append(s, e, false)
    else if s.overflowed then s
    else if Full(l, s, e.size) then Append(Down(s).(overflowed := true), Overflow(l.overflowSize), false)
    else Append(s, e, true)
  }

  /** Whether the caller is told to stop the transport. */
  predicate StopsTransport(l: Limits, s: Session, e: Event, exempt: bool) {
    !exempt && (s.overflowed || Full(l, s, e.size))
  }

  function Fail(l: Limits, s: Session, e: Event, exempt: bool): Session { Enqueue(l, Down(s), e, exempt) }

  /** The subtraction saturates. */
  function Dequeue(s: Session): Session
    requires s.events != []
  {
    var size := s.events[0].size;
    s.(events := s.events[1..], bytes := if s.bytes < size then 0 else s.bytes - size)
  }

  // ----- frames -----

  predicate Allowed(s: Session, id: RequestId, m: Message) {
    match m
    case ReadyMessage => s.phase.Starting? && id == 0
    case ShutdownAck => s.phase.Ready? && id == 0 && s.shutdownRequested
    case Pong => s.phase.Ready? && id == 0
    case _ => s.phase.Ready? && id != 0
  }

  function HandleControl(l: Limits, s: Session, id: RequestId, m: Message, size: nat, diagnostic: nat): Session {
    if !Allowed(s, id, m) then Fail(l, s, Diagnostic(diagnostic), true)
    else
      var e := Control(id, m, size);
      var after := Enqueue(l, s, e, false);
      if m.ReadyMessage? && !StopsTransport(l, s, e, false) then after.(phase := Ready) else after
  }

  function HandleAudio(l: Limits, s: Session, id: RequestId, size: nat, diagnostic: nat): Session {
    if !s.phase.Ready? || id == 0 then Fail(l, s, Diagnostic(diagnostic), true)
    else Enqueue(l, s, Audio(id, size), false)
  }

  function HandleErrorFrame(l: Limits, s: Session, id: RequestId, size: nat): Session {
    if s.phase.Starting? then Fail(l, s, WorkerError(id, size), true) else Enqueue(l, s, WorkerError(id, size), false)
  }

  // ----- runs -----

  /** `Broken` covers undecodable frames, parser failures and transport errors; `SendError`
      is an outbound message that cannot be encoded, which only a starting session dies of. */
  datatype Label =
    | ControlFrame(id: RequestId, m: Message, size: nat, diagnostic: nat)
    | AudioFrame(id: RequestId, size: nat, diagnostic: nat)
    | ErrorFrame(id: RequestId, size: nat)
    | Broken(diagnostic: nat) | SendError(diagnostic: nat) | WrongDirection(diagnostic: nat)
    | Exit(size: nat) | MarkShutdown | TakeEvent | BeginStop | EndStop | StartFails

  predicate Enabled(s: Session, l: Label) { l.TakeEvent? ==> s.events != [] }

  function Apply(lim: Limits, s: Session, l: Label): Session
    requires Enabled(s, l)
  {
    match l
    case ControlFrame(id, m, size, d) => HandleControl(lim, s, id, m, size, d)
    case AudioFrame(id, size, d) => HandleAudio(lim, s, id, size, d)
    case ErrorFrame(id, size) => HandleErrorFrame(lim, s, id, size)
    case Broken(d) => Fail(lim, s, Diagnostic(d), true)
    case SendError(d) =>
      if s.phase.Starting? then Fail(lim, s, Diagnostic(d), true) else Enqueue(lim, s, Diagnostic(d), true)
    case WrongDirection(d) => Enqueue(lim, s, Diagnostic(d), true)
    case Exit(size) => Enqueue(lim, s, ExitStatus(size), true).(phase := Exited)
    case MarkShutdown => s.(shutdownRequested := true)
    case TakeEvent => Dequeue(s)
    case BeginStop => if s.phase.Stopped? || s.phase.Stopping? || s.phase.Exited? then s else s.(phase := Stopping)
    case EndStop => if s.phase.Stopping? then s.(phase := Stopped) else s
    case StartFails => s.(phase := Failed)
  }

  function Step(lim: Limits, s: Session, l: Label): Session {
    if Enabled(s, l) then Apply(lim, s, l) else s
  }

  function Run(lim: Limits, schedule: seq<Label>): Session {
    if schedule == [] then FRESH
    else Step(lim, Run(lim, schedule[..|schedule| - 1]), schedule[|schedule| - 1])
  }

  // ----- byte accounting -----

  function Sum(events: seq<Event>): nat {
    if events == [] then 0 else events[0].size + Sum(events[1..])
  }

  lemma {:induction false} SumAppend(events: seq<Event>, e: Event)
    ensures Sum(events + [e]) == Sum(events) + e.size
  {
    if events == [] {
      assert (events + [e])[1..] == [];
    } else {
      assert (events + [e])[1..] == events[1..] + [e];
      SumAppend(events[1..], e);
    }
  }

  predicate Counted(s: Session) { s.bytes == Sum(s.events) }

  lemma CountedEnqueue(l: Limits, s: Session, e: Event, exempt: bool)
    requires Counted(s)
    ensures Counted(Enqueue(l, s, e, exempt))
  {
    SumAppend(s.events, e);
    SumAppend(s.events, Overflow(l.overflowSize));
  }

  // ----- what enters the queue -----

  predicate IsReady(x: Entry) { x.e.Control? && x.e.m.ReadyMessage? }

  /** Audio and every control event. */
  predicate IsTraffic(x: Entry) { x.e.Control? || x.e.Audio? }

  predicate NoTraffic(h: seq<Entry>) { forall i :: 0 <= i < |h| ==> !IsTraffic(h[i]) }

  /** Entry i is the first traffic, and the only Ready. */
  predicate OpensAt(h: seq<Entry>, i: nat)
    requires i < |h|
  {
    IsReady(h[i]) && (forall k :: 0 <= k < i ==> !IsTraffic(h[k])) && (forall k :: i < k < |h| ==> !IsReady(h[k]))
  }

  ghost predicate Opened(h: seq<Entry>) { exists i :: 0 <= i < |h| && OpensAt(h, i) }

  /** Ready enters at most once and before any other traffic. */
  ghost predicate ReadyFirst(s: Session) {
    if s.phase.Starting? then NoTraffic(s.history)
    else (s.phase.Ready? ==> Opened(s.history)) && (NoTraffic(s.history) || Opened(s.history))
  }

  /** One overflow diagnostic, after which no regular event enters. */
  ghost predicate OverflowOnce(s: Session) {
    if s.overflowed then exists i :: 0 <= i < |s.history| && OverflowAt(s.history, i)
    else forall i :: 0 <= i < |s.history| ==> !s.history[i].e.Overflow?
  }

  predicate OverflowAt(h: seq<Entry>, i: nat)
    requires i < |h|
  {
    h[i].e.Overflow? && (forall k :: 0 <= k < i ==> !h[k].e.Overflow?) &&
    (forall k :: i < k < |h| ==> !h[k].e.Overflow? && !h[k].regular)
  }

  lemma OpenedGrows(h: seq<Entry>, x: Entry)
    requires Opened(h) && !IsReady(x)
    ensures Opened(h + [x])
  {
    var i :| 0 <= i < |h| && OpensAt(h, i);
    assert OpensAt(h + [x], i);
  }

  lemma OpensNow(h: seq<Entry>, x: Entry)
    requires NoTraffic(h) && IsReady(x)
    ensures Opened(h + [x])
  {
    assert OpensAt(h + [x], |h|);
  }

  /** What any enqueue adds to the history. */
  lemma EnqueueAdds(l: Limits, s: Session, e: Event, exempt: bool)
    ensures var after := Enqueue(l, s, e, exempt);
      || after.history == s.history
      || (after.history == s.history + [Entry(e, !exempt)] && !StopsTransport(l, s, e, exempt) && after.phase == s.phase)
      || (after.history == s.history + [Entry(Overflow(l.overflowSize), false)] && !Live(after.phase))
    ensures var after := Enqueue(l, s, e, exempt); after.phase == s.phase || after.phase.Failed?
  {
  }

  lemma QuietEnqueue(l: Limits, s: Session, e: Event, exempt: bool)
    requires ReadyFirst(s) && !e.Control? && !e.Audio?
    ensures ReadyFirst(Enqueue(l, s, e, exempt))
  {
    EnqueueAdds(l, s, e, exempt);
    if Opened(s.history) {
      OpenedGrows(s.history, Entry(e, !exempt));
      OpenedGrows(s.history, Entry(Overflow(l.overflowSize), false));
    }
  }

  lemma QuietFail(l: Limits, s: Session, e: Event, exempt: bool)
    requires ReadyFirst(s) && !e.Control? && !e.Audio?
    ensures ReadyFirst(Fail(l, s, e, exempt))
  {
    QuietEnqueue(l, Down(s), e, exempt);
  }

  lemma TrafficEnqueue(l: Limits, s: Session, e: Event)
    requires ReadyFirst(s) && s.phase.Ready? && !IsReady(Entry(e, true))
    ensures ReadyFirst(Enqueue(l, s, e, false))
  {
    EnqueueAdds(l, s, e, false);
    OpenedGrows(s.history, Entry(e, true));
    OpenedGrows(s.history, Entry(Overflow(l.overflowSize), false));
  }

  lemma ReadyControl(l: Limits, s: Session, id: RequestId, m: Message, size: nat, diagnostic: nat)
    requires ReadyFirst(s)
    ensures ReadyFirst(HandleControl(l, s, id, m, size, diagnostic))
  {
    if !Allowed(s, id, m) {
      QuietFail(l, s, Diagnostic(diagnostic), true);
    } else if m.ReadyMessage? {
      var e := Control(id, m, size);
      EnqueueAdds(l, s, e, false);
      OpensNow(s.history, Entry(e, true));
    } else {
      TrafficEnqueue(l, s, Control(id, m, size));
    }
  }

  lemma ReadyStep(lim: Limits, s: Session, l: Label)
    requires ReadyFirst(s) && Enabled(s, l)
    ensures ReadyFirst(Apply(lim, s, l))
  {
    match l
    case ControlFrame(id, m, size, d) => ReadyControl(lim, s, id, m, size, d);
    case AudioFrame(id, size, d) =>
      if s.phase.Ready? && id != 0 {
        TrafficEnqueue(lim, s, Audio(id, size));
      } else {
        QuietFail(lim, s, Diagnostic(d), true);
      }
    case ErrorFrame(id, size) =>
      if s.phase.Starting? {
        QuietFail(lim, s, WorkerError(id, size), true);
      } else {
        QuietEnqueue(lim, s, WorkerError(id, size), false);
      }
    case Broken(d) => QuietFail(lim, s, Diagnostic(d), true);
    case SendError(d) =>
      QuietFail(lim, s, Diagnostic(d), true);
      QuietEnqueue(lim, s, Diagnostic(d), true);
    case WrongDirection(d) => QuietEnqueue(lim, s, Diagnostic(d), true);
    case Exit(size) => QuietEnqueue(lim, s, ExitStatus(size), true);
    case _ =>
  }

  lemma OverflowGrows(h: seq<Entry>, i: nat, x: Entry)
    requires i < |h| && OverflowAt(h, i) && !x.e.Overflow? && !x.regular
    ensures OverflowAt(h + [x], i)
  {
  }

  lemma OverflowEnqueue(l: Limits, s: Session, e: Event, exempt: bool)
    requires OverflowOnce(s) && !e.Overflow?
    ensures OverflowOnce(Enqueue(l, s, e, exempt))
  {
    var after := Enqueue(l, s, e, exempt);
    if s.overflowed {
      var i :| 0 <= i < |s.history| && OverflowAt(s.history, i);
      if exempt {
        OverflowGrows(s.history, i, Entry(e, false));
      }
    } else if after.overflowed {
      assert OverflowAt(after.history, |s.history|);
    }
  }

  lemma OverflowStep(lim: Limits, s: Session, l: Label)
    requires OverflowOnce(s) && Enabled(s, l)
    ensures OverflowOnce(Apply(lim, s, l))
  {
    match l
    case ControlFrame(id, m, size, d) =>
      OverflowEnqueue(lim, s, Control(id, m, size), false);
      OverflowEnqueue(lim, Down(s), Diagnostic(d), true);
    case AudioFrame(id, size, d) =>
      OverflowEnqueue(lim, s, Audio(id, size), false);
      OverflowEnqueue(lim, Down(s), Diagnostic(d), true);
    case ErrorFrame(id, size) =>
      OverflowEnqueue(lim, s, WorkerError(id, size), false);
      OverflowEnqueue(lim, Down(s), WorkerError(id, size), true);
    case Broken(d) => OverflowEnqueue(lim, Down(s), Diagnostic(d), true);
    case SendError(d) =>
      OverflowEnqueue(lim, s, Diagnostic(d), true);
      OverflowEnqueue(lim, Down(s), Diagnostic(d), true);
    case WrongDirection(d) => OverflowEnqueue(lim, s, Diagnostic(d), true);
    case Exit(size) => OverflowEnqueue(lim, s, ExitStatus(size), true);
    case _ =>
  }

  lemma CountedStep(lim: Limits, s: Session, l: Label)
    requires Counted(s) && Enabled(s, l)
    ensures Counted(Apply(lim, s, l))
  {
    match l
    case ControlFrame(id, m, size, d) =>
      CountedEnqueue(lim, s, Control(id, m, size), false);
      CountedEnqueue(lim, Down(s), Diagnostic(d), true);
    case AudioFrame(id, size, d) =>
      CountedEnqueue(lim, s, Audio(id, size), false);
      CountedEnqueue(lim, Down(s), Diagnostic(d), true);
    case ErrorFrame(id, size) =>
      CountedEnqueue(lim, s, WorkerError(id, size), false);
      CountedEnqueue(lim, Down(s), WorkerError(id, size), true);
    case Broken(d) => CountedEnqueue(lim, Down(s), Diagnostic(d), true);
    case SendError(d) =>
      CountedEnqueue(lim, s, Diagnostic(d), true);
      CountedEnqueue(lim, Down(s), Diagnostic(d), true);
    case WrongDirection(d) => CountedEnqueue(lim, s, Diagnostic(d), true);
    case Exit(size) => CountedEnqueue(lim, s, ExitStatus(size), true);
    case _ =>
  }

  ghost predicate Inv(s: Session) { Counted(s) && ReadyFirst(s) && OverflowOnce(s) }

  lemma StepKeeps(lim: Limits, s: Session, l: Label)
    ensures Inv(s) ==> Inv(Step(lim, s, l))
  {
    if Inv(s) && Enabled(s, l) {
      CountedStep(lim, s, l);
      ReadyStep(lim, s, l);
      OverflowStep(lim, s, l);
    }
  }

  lemma {:induction false} RunInv(lim: Limits, schedule: seq<Label>)
    ensures Inv(Run(lim, schedule))
  {
    if schedule != [] {
      RunInv(lim, schedule[..|schedule| - 1]);
      StepKeeps(lim, Run(lim, schedule[..|schedule| - 1]), schedule[|schedule| - 1]);
    }
  }

  lemma EnqueueKeeps(l: Limits, s: Session, e: Event, exempt: bool)
    ensures Counted(s) ==> Counted(Enqueue(l, s, e, exempt))
    ensures OverflowOnce(s) && !e.Overflow? ==> OverflowOnce(Enqueue(l, s, e, exempt))
  {
    if Counted(s) {
      CountedEnqueue(l, s, e, exempt);
    }
    if OverflowOnce(s) && !e.Overflow? {
      OverflowEnqueue(l, s, e, exempt);
    }
  }

  lemma FailKeeps(l: Limits, s: Session, e: Event, exempt: bool)
    ensures Inv(s) && !e.Control? && !e.Audio? && !e.Overflow? ==> Inv(Fail(l, s, e, exempt))
  {
    if Inv(s) && !e.Control? && !e.Audio? && !e.Overflow? {
      EnqueueKeeps(l, Down(s), e, exempt);
      QuietFail(l, s, e, exempt);
    }
  }

  // ----- theorems -----

  /** In every run, Ready enters the queue at most once and before any audio or any other
      control event. */
  lemma ReadyOnceAndFirst(lim: Limits, schedule: seq<Label>, i: nat, j: nat)
    requires i < j < |Run(lim, schedule).history|
    ensures var h := Run(lim, schedule).history;
      IsTraffic(h[i]) && IsTraffic(h[j]) ==> !IsReady(h[j]) && exists k :: 0 <= k <= i && IsReady(h[k])
  {
    RunInv(lim, schedule);
    var h := Run(lim, schedule).history;
    if IsTraffic(h[i]) && IsTraffic(h[j]) {
      assert Opened(h);
      var k :| 0 <= k < |h| && OpensAt(h, k);
      assert k <= i && IsReady(h[k]);
    }
  }

  /** The byte count is the sum of the queued payloads, so taking an event never saturates. */
  lemma BytesExact(lim: Limits, schedule: seq<Label>)
    ensures var s := Run(lim, schedule);
      s.bytes == Sum(s.events) && (s.events != [] ==> s.events[0].size <= s.bytes)
  {
    RunInv(lim, schedule);
  }

  /** The last entry is new and was subject to the limits. */
  predicate RegularEntered(s: Session, after: Session) {
    |after.history| > |s.history| && after.history[|after.history| - 1].regular
  }

  lemma EnqueuedWithin(l: Limits, s: Session, e: Event, exempt: bool)
    requires RegularEntered(s, Enqueue(l, s, e, exempt))
    ensures |Enqueue(l, s, e, exempt).events| <= l.events && Enqueue(l, s, e, exempt).bytes <= l.bytes
  {
  }

  lemma ExemptEnters(l: Limits, s: Session, e: Event)
    ensures !RegularEntered(s, Fail(l, s, e, true)) && !RegularEntered(s, Enqueue(l, s, e, true))
  {
  }

  lemma ControlWithin(lim: Limits, s: Session, id: RequestId, m: Message, size: nat, d: nat)
    requires RegularEntered(s, HandleControl(lim, s, id, m, size, d))
    ensures var after := HandleControl(lim, s, id, m, size, d); |after.events| <= lim.events && after.bytes <= lim.bytes
  {
    ExemptEnters(lim, s, Diagnostic(d));
    EnqueuedWithin(lim, s, Control(id, m, size), false);
  }

  /** Whenever a regular event enters, both limits hold right after it. */
  lemma RegularWithinLimits(lim: Limits, schedule: seq<Label>, l: Label)
    requires RegularEntered(Run(lim, schedule), Step(lim, Run(lim, schedule), l))
    ensures var after := Step(lim, Run(lim, schedule), l); |after.events| <= lim.events && after.bytes <= lim.bytes
  {
    var s := Run(lim, schedule);
    match l
    case ControlFrame(id, m, size, d) => ControlWithin(lim, s, id, m, size, d);
    case AudioFrame(id, size, d) =>
      ExemptEnters(lim, s, Diagnostic(d));
      EnqueuedWithin(lim, s, Audio(id, size), false);
    case ErrorFrame(id, size) =>
      ExemptEnters(lim, s, WorkerError(id, size));
      EnqueuedWithin(lim, s, WorkerError(id, size), false);
    case Broken(d) => ExemptEnters(lim, s, Diagnostic(d));
    case SendError(d) => ExemptEnters(lim, s, Diagnostic(d));
    case WrongDirection(d) => ExemptEnters(lim, s, Diagnostic(d));
    case Exit(size) => ExemptEnters(lim, s, ExitStatus(size));
    case _ =>
  }

  /** At most one overflow diagnostic ever enters, exactly one once the flag is set, and no
      regular event enters after it. */
  lemma OneOverflow(lim: Limits, schedule: seq<Label>)
    ensures var s := Run(lim, schedule);
      && (s.overflowed <==> exists i :: 0 <= i < |s.history| && s.history[i].e.Overflow?)
      && (forall i, j :: 0 <= i < j < |s.history| && s.history[i].e.Overflow? ==>
            !s.history[j].e.Overflow? && !s.history[j].regular)
  {
    RunInv(lim, schedule);
    var s := Run(lim, schedule);
    if s.overflowed {
      var i :| 0 <= i < |s.history| && OverflowAt(s.history, i);
      assert s.history[i].e.Overflow?;
    }
  }

  // ----- the object -----

  class WorkerSession {
    const limits: Limits
    var phase: Phase
    var events: seq<Event>
    var queuedBytes: nat
    var overflowed: bool
    var shutdownRequested: bool
    ghost var history: seq<Entry>

    ghost function View(): Session
      reads this
    {
      Session(phase, events, queuedBytes, overflowed, shutdownRequested, history)
    }

    constructor (l: Limits)
      ensures limits == l && View() == FRESH
    {
      limits, phase, events, queuedBytes, overflowed, shutdownRequested := l, Starting, [], 0, false, false;
      history := [];
    }

    method EnqueueEvent(e: Event, exempt: bool) returns (stop: bool)
      modifies this`phase, this`events, this`queuedBytes, this`overflowed, this`history
      ensures View() == Enqueue(limits, old(View()), e, exempt)
      ensures stop == StopsTransport(limits, old(View()), e, exempt)
      ensures Counted(old(View())) ==> Counted(View())
      ensures OverflowOnce(old(View())) && !e.Overflow? ==> OverflowOnce(View())
    {
      EnqueueKeeps(limits, View(), e, exempt);
      if !exempt && !overflowed {
        var countFull := |events| >= limits.events;
        var bytesFull := e.size > limits.bytes || queuedBytes > limits.bytes - e.size;
        if countFull || bytesFull {
          overflowed := true;
          if phase.Starting? || phase.Ready? {
            phase := Failed;
          }
          queuedBytes := queuedBytes + limits.overflowSize;
          events := events + [Overflow(limits.overflowSize)];
          history := history + [Entry(Overflow(limits.overflowSize), false)];
          return true;
        }
      }
      if overflowed && !exempt {
        return true;
      }
      queuedBytes := queuedBytes + e.size;
      events := events + [e];
      history := history + [Entry(e, !exempt)];
      return false;
    }

    method FailWithEvent(e: Event, exempt: bool) returns (stop: bool)
      modifies this`phase, this`events, this`queuedBytes, this`overflowed, this`history
      ensures View() == Fail(limits, old(View()), e, exempt)
      ensures Inv(old(View())) && !e.Control? && !e.Audio? && !e.Overflow? ==> Inv(View())
    {
      FailKeeps(limits, View(), e, exempt);
      if phase.Starting? || phase.Ready? {
        phase := Failed;
      }
      stop := EnqueueEvent(e, exempt);
    }

    method HandleControlFrame(id: RequestId, m: Message, size: nat, diagnostic: nat) returns (stop: bool)
      modifies this`phase, this`events, this`queuedBytes, this`overflowed, this`history
      ensures View() == HandleControl(limits, old(View()), id, m, size, diagnostic)
      ensures Inv(old(View())) ==> Inv(View())
    {
      StepKeeps(limits, View(), ControlFrame(id, m, size, diagnostic));
      var allowed :=
        if m.ReadyMessage? then phase.Starting? && id == 0
        else if !phase.Ready? then false
        else if m.ShutdownAck? then id == 0 && shutdownRequested
        else if m.Pong? then id == 0
        else id != 0;
      if !allowed {
        stop := FailWithEvent(Diagnostic(diagnostic), true);
        return;
      }
      stop := EnqueueEvent(Control(id, m, size), false);
      if m.ReadyMessage? && !stop {
        phase := Ready;
      }
    }

    method WaitForEvent() returns (e: Event)
      requires events != []
      modifies this`events, this`queuedBytes
      ensures e == old(events[0]) && View() == Dequeue(old(View()))
      ensures Inv(old(View())) ==> Inv(View())
    {
      StepKeeps(limits, View(), TakeEvent);
      e := events[0];
      queuedBytes := queuedBytes - (if queuedBytes < e.size then queuedBytes else e.size);
      events := events[1..];
    }
  }
}
