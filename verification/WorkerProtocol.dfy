/** The native worker as a transition system: a reader thread, an engine thread and
    a writer thread. One step is one lock region, one atomic exchange, one frame
    handed to the writer, or one operating-system write; any interleaving is a run. */
module WorkerProtocol {
  import opened Basics
  import opened RequestTable
  import OutputStream

  /** `Failed` is the error frame that ends an accepted request; `Rejected` is any
      other error frame. The two are the same frame type on the wire. */
  datatype Frame =
    | Ready | Pong | Rejected(id: RequestId) | QueuedAt(id: RequestId, position: nat)
    | Started(id: RequestId) | Audio(id: RequestId, pcm: seq<Byte>)
    | Completed(id: RequestId) | Cancelled(id: RequestId) | Failed(id: RequestId)
    | ShutdownAck

  datatype ReaderPc = Reading | Marking | Joining | Draining | Returned
  datatype EnginePc =
    | Taking | Starting(id: RequestId) | Streaming(id: RequestId)
    | Finishing(id: RequestId, last: Frame) | Releasing(id: RequestId, last: Frame)
    | Leaving | Done

  /** Who was first to mark a request terminal, counted per request. */
  datatype Claims = Claims(
    byCancel: multiset<RequestId>, byShutdown: multiset<RequestId>, byEngine: multiset<RequestId>)

  /** `rOut` and `eOut` are the frames a thread has still to hand to the writer before
      it goes on; `rFail` and `eFail` say that it must report a fatal error first.
      `log`, `accepted`, `taken`, `claims` and `dropped` are history. */
  datatype Core = Core(
    t: Table,
    rPc: ReaderPc, rOut: seq<Frame>, rFail: bool,
    ePc: EnginePc, eOut: seq<Frame>, eFail: bool,
    log: seq<Frame>, accepted: set<RequestId>, taken: RequestId, claims: Claims, dropped: bool)

  datatype ReaderLabel =
    | Hello(id: RequestId) | Ping(id: RequestId) | Reject(id: RequestId)
    | Synthesize(id: RequestId, valid: bool) | CancelRequest(id: RequestId)
    | Shutdown(id: RequestId, modeIsCancel: bool) | EndOfInput | ParserFatal
    | Mark | Join | Return

  datatype EngineLabel =
    | Take | Leave | Begin | EmitAudio(pcm: seq<Byte>) | InvalidChunk | Synthesized(last: Frame)
    | Exchange | ReleaseSlot | Acknowledge

  datatype SendLabel = ReaderSend | ReaderDrop | ReaderFatal | EngineSend | EngineDrop | EngineFatal

  datatype Label = OfReader(r: ReaderLabel) | OfEngine(e: EngineLabel) | OfSend(s: SendLabel)

  function Init(limit: nat): Core {
    Core(Initial(limit), Reading, [], false, Taking, [], false, [], {}, 0,
         Claims(multiset{}, multiset{}, multiset{}), false)
  }

  predicate Ends(f: Frame, id: RequestId) {
    f == Completed(id) || f == Cancelled(id) || f == Failed(id)
  }

  predicate Touches(f: Frame, id: RequestId) {
    Ends(f, id) || f == Started(id) || (f.Audio? && f.id == id)
  }

  function CancelFrames(ids: seq<RequestId>): seq<Frame> {
    seq(|ids|, i requires 0 <= i < |ids| => Cancelled(ids[i]))
  }

  predicate SlotTerminal(c: Core, id: RequestId) {
    id in c.t.active ==> c.t.active[id].terminal
  }

  predicate SlotCancelled(c: Core, id: RequestId) {
    id in c.t.active && c.t.active[id].cancelled
  }

  predicate ReaderIdle(c: Core) { c.rOut == [] && !c.rFail }

  predicate EngineIdle(c: Core) { c.eOut == [] && !c.eFail }

  /** Steps of the reader between two reads of stdin, then of the main thread. */
  predicate ReaderEnabled(c: Core, l: ReaderLabel) {
    match l
    case Join => c.rPc.Joining? && c.ePc.Done? && EngineIdle(c)
    case Return => c.rPc.Draining?
    case Mark => c.rPc.Marking? && ReaderIdle(c)
    case _ => c.rPc.Reading? && ReaderIdle(c)
  }

  predicate EngineEnabled(c: Core, l: EngineLabel) {
    EngineIdle(c) &&
    match l
    case Take => c.ePc.Taking? && c.t.pending != [] && c.t.pending[0] in c.t.active
    case Leave => c.ePc.Taking? && c.t.pending == [] &&
                  ((c.t.shutdown && c.t.terminalsEnqueued) || c.t.fatal)
    case Begin => c.ePc.Starting?
    case EmitAudio(_) => c.ePc.Streaming? && !SlotCancelled(c, c.ePc.id) && !SlotTerminal(c, c.ePc.id)
    case InvalidChunk => c.ePc.Streaming?
    case Synthesized(last) => c.ePc.Streaming? && Ends(last, c.ePc.id)
    case Exchange => c.ePc.Finishing?
    case ReleaseSlot => c.ePc.Releasing?
    case Acknowledge => c.ePc.Leaving?
  }

  /** Steps in which a thread hands a frame to the writer, loses one, or reports that. */
  predicate SendEnabled(c: Core, l: SendLabel) {
    match l
    case ReaderSend => c.rOut != [] && !c.rFail
    case ReaderDrop => c.rOut != [] && !c.rFail
    case ReaderFatal => c.rFail
    case EngineSend => c.eOut != [] && !c.eFail
    case EngineDrop => c.eOut != [] && !c.eFail
    case EngineFatal => c.eFail
  }

  function BeginShutdown(c: Core, sendAck: bool): Core {
    var (t', ids) := RequestShutdown(c.t, sendAck);
    c.(t := t', rOut := CancelFrames(ids),
       claims := c.claims.(byShutdown := c.claims.byShutdown + multiset(ids)),
       rPc := if c.t.shutdown then Joining else Marking)
  }

  function HandleSynthesize(c: Core, id: RequestId, valid: bool): Core {
    if !c.t.ready || id == 0 || !valid then c.(rOut := [Rejected(id)])
    else
      var (t', a) := Admit(c.t, id);
      if a.Accepted? then c.(t := t', accepted := c.accepted + {id}, rOut := [QueuedAt(id, a.position)])
      else c.(rOut := [Rejected(id)])
  }

  function HandleCancel(c: Core, id: RequestId): Core {
    if !c.t.ready || id == 0 then c.(rOut := [Rejected(id)])
    else
      var (t', o) := Cancel(c.t, id);
      match o
      case UnknownRequest => c.(rOut := [Rejected(id)])
      case CancelledNow =>
        c.(t := t', rOut := [Cancelled(id)],
           claims := c.claims.(byCancel := c.claims.byCancel + multiset{id}))
      case _ => c.(t := t')
  }

  function ReaderStep(c: Core, l: ReaderLabel): Core
    requires ReaderEnabled(c, l)
  {
    match l
    case Hello(id) =>
      if id != 0 || c.t.ready || c.t.shutdown then c.(rOut := [Rejected(id)])
      else c.(t := c.t.(ready := true), rOut := [Ready])
    case Ping(id) => c.(rOut := if id != 0 then [Rejected(id)] else [Pong])
    case Reject(id) => c.(rOut := [Rejected(id)])
    case Synthesize(id, valid) => HandleSynthesize(c, id, valid)
    case CancelRequest(id) => HandleCancel(c, id)
    case Shutdown(id, ok) => if id != 0 || !ok then c.(rOut := [Rejected(id)]) else BeginShutdown(c, true)
    case EndOfInput => BeginShutdown(c, false)
    case ParserFatal => c.(t := FailFatal(c.t))
    case Mark => c.(t := c.t.(terminalsEnqueued := true), rPc := Joining)
    case Join => c.(rPc := Draining)
    case Return => c.(rPc := Returned)
  }

  function MarkTerminal(t: Table, id: RequestId): Table
    requires id in t.active
  {
    t.(active := t.active[id := t.active[id].(terminal := true)])
  }

  function EngineStep(c: Core, l: EngineLabel): Core
    requires EngineEnabled(c, l)
  {
    match l
    case Take => c.(t := TakeNext(c.t), ePc := Starting(c.t.pending[0]), taken := c.t.pending[0])
    case Leave => c.(ePc := Leaving)
    case Begin =>
      if SlotCancelled(c, c.ePc.id) then c.(ePc := Finishing(c.ePc.id, Cancelled(c.ePc.id)))
      else c.(ePc := Streaming(c.ePc.id), eOut := [Started(c.ePc.id)])
    case EmitAudio(pcm) => c.(eOut := [Audio(c.ePc.id, pcm)])
    case InvalidChunk => c.(eFail := true)
    case Synthesized(last) => c.(ePc := Finishing(c.ePc.id, last))
    case Exchange =>
      if SlotTerminal(c, c.ePc.id) then c.(ePc := Taking)
      else
        c.(t := MarkTerminal(c.t, c.ePc.id),
           ePc := Releasing(c.ePc.id, c.ePc.last),
           claims := c.claims.(byEngine := c.claims.byEngine + multiset{c.ePc.id}))
    case ReleaseSlot => c.(t := Release(c.t, c.ePc.id), eOut := [c.ePc.last], ePc := Taking)
    case Acknowledge => c.(eOut := if c.t.ackNeeded then [ShutdownAck] else [], ePc := Done)
  }

  function SendStep(c: Core, l: SendLabel): Core
    requires SendEnabled(c, l)
  {
    match l
    case ReaderSend => c.(rOut := c.rOut[1..], log := c.log + [c.rOut[0]])
    case ReaderDrop => c.(rOut := c.rOut[1..], rFail := true, dropped := true)
    case ReaderFatal => c.(t := FailFatal(c.t), rFail := false)
    case EngineSend => c.(eOut := c.eOut[1..], log := c.log + [c.eOut[0]])
    case EngineDrop => c.(eOut := c.eOut[1..], eFail := true, dropped := true)
    case EngineFatal => c.(t := FailFatal(c.t), eFail := false)
  }

  predicate Enabled(c: Core, l: Label) {
    match l
    case OfReader(r) => ReaderEnabled(c, r)
    case OfEngine(e) => EngineEnabled(c, e)
    case OfSend(s) => SendEnabled(c, s)
  }

  function Apply(c: Core, l: Label): Core
    requires Enabled(c, l)
  {
    match l
    case OfReader(r) => ReaderStep(c, r)
    case OfEngine(e) => EngineStep(c, e)
    case OfSend(s) => SendStep(c, s)
  }

  /** One turn of a schedule: a step that is not enabled is skipped. */
  function Step(c: Core, l: Label): Core {
    if Enabled(c, l) then Apply(c, l) else c
  }

  /** The state after a schedule. Every reachable state is the result of one. */
  function Run(limit: nat, schedule: seq<Label>): Core {
    if schedule == [] then Init(limit)
    else Step(Run(limit, schedule[..|schedule| - 1]), schedule[|schedule| - 1])
  }

  // ----- the life of one request as the log shows it -----

  /** Reference automaton for the frames of one request: nothing, then Started, then
      audio, then one terminal frame; a queued request may end without starting. */
  datatype Phase = Fresh | Live | Closed | Broken

  function Advance(p: Phase, f: Frame, id: RequestId): Phase {
    if !Touches(f, id) then p
    else if f.Started? then (if p.Fresh? then Live else Broken)
    else if f.Audio? then (if p.Live? then Live else Broken)
    else if p.Fresh? || p.Live? then Closed
    else Broken
  }

  function PhaseOf(p: Phase, log: seq<Frame>, id: RequestId): Phase {
    if log == [] then p else Advance(PhaseOf(p, log[..|log| - 1], id), log[|log| - 1], id)
  }

  // ----- invariants, each over the parts of the state that it reads -----

  function Owner(pc: EnginePc): set<RequestId> {
    if pc.Taking? || pc.Leaving? || pc.Done? then {} else {pc.id}
  }

  /** A running slot belongs to the engine, and only the engine marks it terminal. */
  ghost predicate Owned(active: map<RequestId, Slot>, pc: EnginePc) {
    && (forall id :: id in active ==>
          (active[id].state.Running? <==> id in Owner(pc)) &&
          (active[id].terminal <==> pc.Releasing? && pc.id == id))
    && Owner(pc) <= active.Keys
    && (pc.Finishing? || pc.Releasing? ==> Ends(pc.last, pc.id))
  }

  ghost predicate Recorded(t: Table, accepted: set<RequestId>) {
    && (forall id :: id in t.active ==> id in accepted)
    && (forall id :: id in accepted ==> 0 < id <= t.highWater)
  }

  ghost predicate Ownership(c: Core) {
    Coherent(c.t) && Owned(c.t.active, c.ePc) && Recorded(c.t, c.accepted)
  }

  /** The shutdown flags follow the reader's progress, and no lost frame goes unreported. */
  ghost predicate Progress(c: Core) {
    && |c.eOut| <= 1
    && (c.rPc.Reading? <==> !c.t.shutdown)
    && (c.t.terminalsEnqueued <==> !c.rPc.Reading? && !c.rPc.Marking?)
    && (c.t.terminalsEnqueued ==> c.rOut == [] && !c.rFail)
    && (c.rPc.Draining? || c.rPc.Returned? ==> c.ePc.Done? && c.eOut == [] && !c.eFail)
    && ((c.ePc.Leaving? || c.ePc.Done?) && !c.t.fatal ==> c.t.terminalsEnqueued)
    && (c.dropped ==> c.t.fatal || c.rFail || c.eFail)
  }

  predicate Finished(accepted: set<RequestId>, active: map<RequestId, Slot>, id: RequestId) {
    id in accepted && (id in active ==> active[id].terminal)
  }

  function ClaimCount(claims: Claims, id: RequestId): nat {
    claims.byCancel[id] + claims.byShutdown[id] + claims.byEngine[id]
  }

  /** An accepted request is claimed exactly once when it is finished, never before. */
  ghost predicate Balanced(c: Core, id: RequestId) {
    ClaimCount(c.claims, id) == if Finished(c.accepted, c.t.active, id) then 1 else 0
  }

  ghost predicate Accounted(c: Core) {
    forall id :: Balanced(c, id)
  }

  predicate Mentions(out: seq<Frame>, id: RequestId) {
    exists i :: 0 <= i < |out| && Touches(out[i], id)
  }

  /** What the threads still owe: the reader only ends requests that left the table, the
      engine only speaks about its own request or ends one that left, never the same one. */
  ghost predicate OutboxesApart(c: Core, id: RequestId) {
    && (Mentions(c.rOut, id) ==> id in c.accepted && id !in c.t.active && !Mentions(c.eOut, id))
    && (Mentions(c.eOut, id) ==> id in c.accepted && (id in Owner(c.ePc) || id !in c.t.active))
  }

  /** The phase of a request once both threads have sent what they owe. */
  function Settled(c: Core, id: RequestId): Phase {
    PhaseOf(PhaseOf(PhaseOf(Fresh, c.log, id), c.rOut, id), c.eOut, id)
  }

  ghost predicate PhaseFits(c: Core, id: RequestId, p: Phase) {
    if id !in c.accepted then p.Fresh?
    else if id !in c.t.active then p.Closed?
    else if c.t.active[id].state.Queued? || c.ePc.Starting? then p.Fresh?
    else if c.ePc.Streaming? then p.Live?
    else p.Fresh? || p.Live?
  }

  ghost predicate FramedAt(c: Core, id: RequestId) {
    OutboxesApart(c, id) && PhaseFits(c, id, Settled(c, id))
  }

  ghost predicate Framed(c: Core) {
    forall id :: FramedAt(c, id)
  }

  /** The id of the last Started frame, 0 if there is none. */
  function LastStart(log: seq<Frame>): nat {
    if log == [] then 0
    else if log[|log| - 1].Started? then log[|log| - 1].id
    else LastStart(log[..|log| - 1])
  }

  predicate StartsAscend(log: seq<Frame>) {
    log != [] ==>
      StartsAscend(log[..|log| - 1]) &&
      (log[|log| - 1].Started? ==> LastStart(log[..|log| - 1]) < log[|log| - 1].id)
  }

  /** Requests are taken in id order, and each is started after all taken before it. */
  ghost predicate Ordered(c: Core) {
    && (forall i :: 0 <= i < |c.rOut| ==> !c.rOut[i].Started?)
    && StartsAscend(c.log)
    && LastStart(c.log) <= c.taken <= c.t.highWater
    && (forall x :: x in c.t.pending ==> c.taken < x)
    && Owner(c.ePc) <= {c.taken}
    && (c.eOut != [] && c.eOut[0].Started? ==> c.ePc.Streaming? && c.eOut[0].id == c.taken)
    && (c.ePc.Starting? || (c.eOut != [] && c.eOut[0].Started?) ==> LastStart(c.log) < c.taken)
  }

  /** Before every acknowledgement in the log, every accepted request is closed. */
  ghost predicate ClosedBeforeAck(log: seq<Frame>, accepted: set<RequestId>) {
    forall p, id :: 0 <= p < |log| && log[p] == ShutdownAck && id in accepted ==>
      PhaseOf(Fresh, log[..p], id).Closed?
  }

  ghost predicate AckLast(c: Core) {
    && ShutdownAck !in c.rOut
    && (ShutdownAck in c.log || ShutdownAck in c.eOut ==> c.ePc.Done?)
    && (c.ePc.Leaving? ==> c.eOut == [])
    && (c.ePc.Done? ==> c.eOut == [] || c.eOut == [ShutdownAck])
    && (c.ePc.Done? && c.t.ackNeeded && !c.t.fatal && !c.dropped ==> ShutdownAck in c.log || ShutdownAck in c.eOut)
    && (!c.t.fatal && !c.dropped ==> ClosedBeforeAck(c.log, c.accepted))
  }

  // ----- the three threads together -----

  datatype System = System(core: Core, w: OutputStream.Writer<Frame>)
  datatype SystemLabel = CoreTurn(l: Label) | WriterTurn(step: OutputStream.WriterStep)

  /** A send needs room in the writer's queue; joining the engine makes the main thread
      stop the writer; `run` returns once the writer has exited. */
  predicate SystemEnabled(enc: Frame -> seq<Byte>, s: System, l: SystemLabel) {
    match l
    case WriterTurn(step) => OutputStream.Enabled(enc, s.w, step)
    case CoreTurn(l) =>
      && Enabled(s.core, l)
      && (l == OfSend(ReaderSend) || l == OfSend(EngineSend) ==> OutputStream.CanAccept(s.w))
      && (l == OfReader(Return) ==> s.w.pc.Exited?)
  }

  function SystemStep(enc: Frame -> seq<Byte>, s: System, l: SystemLabel): System {
    if !SystemEnabled(enc, s, l) then s
    else match l
    case WriterTurn(step) => s.(w := OutputStream.Apply(enc, s.w, step))
    case CoreTurn(l) =>
      System(Apply(s.core, l),
             if l == OfSend(ReaderSend) then OutputStream.Offer(s.w, s.core.rOut[0])
             else if l == OfSend(EngineSend) then OutputStream.Offer(s.w, s.core.eOut[0])
             else if l == OfReader(Join) then s.w.(stopping := true)
             else s.w)
  }

  function RunSystem(enc: Frame -> seq<Byte>, limit: nat, schedule: seq<SystemLabel>): System {
    if schedule == [] then System(Init(limit), OutputStream.Start())
    else SystemStep(enc, RunSystem(enc, limit, schedule[..|schedule| - 1]), schedule[|schedule| - 1])
  }

  /** The exit status of the worker process is 0. */
  predicate ReturnedSuccess(s: System) {
    s.core.rPc.Returned? && !s.core.t.fatal && !s.w.failed
  }
}
