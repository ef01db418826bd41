/** Safety of the native worker over every run. */
module WorkerSafety {
  import opened Basics
  import opened RequestTable
  import opened WorkerProtocol

  // ----- ownership -----

  lemma OwnAdmit(t: Table, pc: EnginePc, accepted: set<RequestId>, id: RequestId)
    requires Coherent(t) && Owned(t.active, pc) && Recorded(t, accepted)
    ensures var (t', a) := Admit(t, id);
      Owned(t'.active, pc) && Recorded(t', if a.Accepted? then accepted + {id} else accepted)
  {
  }

  lemma OwnCancel(t: Table, pc: EnginePc, accepted: set<RequestId>, id: RequestId)
    requires Coherent(t) && Owned(t.active, pc) && Recorded(t, accepted)
    ensures Owned(Cancel(t, id).0.active, pc) && Recorded(Cancel(t, id).0, accepted)
  {
    var t' := Cancel(t, id).0;
    CancelQueue(t, id);
    forall x
      ensures x in t'.active ==> x in t.active && t'.active[x].state == t.active[x].state
      ensures x in t'.active ==> t'.active[x].terminal == t.active[x].terminal
      ensures x in t.active && t.active[x].state.Running? ==> x in t'.active
    {
      CancelSlot(t, id, x);
      CancelState(t, id, x);
    }
  }

  /** Shutdown leaves the running slots alone, but for their cancelled flag. */
  lemma OwnShutdown(t: Table, pc: EnginePc, accepted: set<RequestId>, sendAck: bool)
    requires Coherent(t) && Owned(t.active, pc) && Recorded(t, accepted)
    ensures Owned(RequestShutdown(t, sendAck).0.active, pc) && Recorded(RequestShutdown(t, sendAck).0, accepted)
  {
    if !t.shutdown {
      DrainQueued(t.pending, t.active);
    }
  }

  lemma OwnFatal(t: Table, pc: EnginePc, accepted: set<RequestId>)
    requires Owned(t.active, pc) && Recorded(t, accepted)
    ensures Owned(FailFatal(t).active, pc) && Recorded(FailFatal(t), accepted)
  {
  }

  lemma OwnTake(t: Table, accepted: set<RequestId>)
    requires Coherent(t) && Owned(t.active, Taking) && Recorded(t, accepted)
    requires t.pending != [] && t.pending[0] in t.active
    ensures Owned(TakeNext(t).active, Starting(t.pending[0])) && Recorded(TakeNext(t), accepted)
  {
    assert t.pending[0] in t.pending;
  }

  lemma OwnExchange(t: Table, pc: EnginePc)
    requires Coherent(t) && Owned(t.active, pc) && pc.Finishing?
    ensures Coherent(MarkTerminal(t, pc.id)) && Owned(MarkTerminal(t, pc.id).active, Releasing(pc.id, pc.last))
  {
    assert t.active[pc.id := t.active[pc.id].(terminal := true)].Keys == t.active.Keys;
  }

  lemma OwnRelease(t: Table, pc: EnginePc, accepted: set<RequestId>)
    requires Coherent(t) && Owned(t.active, pc) && pc.Releasing? && Recorded(t, accepted)
    ensures Owned(Release(t, pc.id).active, Taking) && Recorded(Release(t, pc.id), accepted)
  {
  }

  lemma OwnershipReader(c: Core, l: ReaderLabel)
    requires Ownership(c) && ReaderEnabled(c, l)
    ensures Ownership(ReaderStep(c, l))
  {
    match l
    case Synthesize(id, valid) => AdmitCoherent(c.t, id); OwnAdmit(c.t, c.ePc, c.accepted, id);
    case CancelRequest(id) => CancelCoherent(c.t, id); OwnCancel(c.t, c.ePc, c.accepted, id);
    case Shutdown(id, ok) => ShutdownCoherent(c.t, true); OwnShutdown(c.t, c.ePc, c.accepted, true);
    case EndOfInput => ShutdownCoherent(c.t, false); OwnShutdown(c.t, c.ePc, c.accepted, false);
    case ParserFatal => FatalCoherent(c.t); OwnFatal(c.t, c.ePc, c.accepted);
    case _ =>
  }

  lemma OwnershipEngine(c: Core, l: EngineLabel)
    requires Ownership(c) && EngineEnabled(c, l)
    ensures Ownership(EngineStep(c, l))
  {
    match l
    case Take => TakeCoherent(c.t); OwnTake(c.t, c.accepted);
    case Exchange => OwnExchange(c.t, c.ePc);
    case ReleaseSlot => ReleaseCoherent(c.t, c.ePc.id); OwnRelease(c.t, c.ePc, c.accepted);
    case _ =>
  }

  lemma OwnershipSend(c: Core, l: SendLabel)
    requires Ownership(c) && SendEnabled(c, l)
    ensures Ownership(SendStep(c, l))
  {
    if l.ReaderFatal? || l.EngineFatal? {
      FatalCoherent(c.t);
      OwnFatal(c.t, c.ePc, c.accepted);
    }
  }

  lemma OwnershipStep(c: Core, l: Label)
    requires Ownership(c) && Enabled(c, l)
    ensures Ownership(Apply(c, l))
  {
    match l
    case OfReader(r) => OwnershipReader(c, r);
    case OfEngine(e) => OwnershipEngine(c, e);
    case OfSend(s) => OwnershipSend(c, s);
  }

  lemma ProgressReader(c: Core, l: ReaderLabel)
    requires Progress(c) && ReaderEnabled(c, l)
    ensures Progress(ReaderStep(c, l))
  {
  }

  lemma ProgressEngine(c: Core, l: EngineLabel)
    requires Progress(c) && EngineEnabled(c, l)
    ensures Progress(EngineStep(c, l))
  {
  }

  lemma ProgressStep(c: Core, l: Label)
    requires Progress(c) && Enabled(c, l)
    ensures Progress(Apply(c, l))
  {
    match l
    case OfReader(r) => ProgressReader(c, r);
    case OfEngine(e) => ProgressEngine(c, e);
    case OfSend(s) =>
  }

  // ----- exactly-once accounting -----

  lemma AscendingOnce(s: seq<RequestId>, id: RequestId)
    requires Ascending(s)
    ensures multiset(s)[id] == if id in s then 1 else 0
  {
    if s != [] {
      AscendingTail(s);
      assert s == [s[0]] + s[1..];
      AscendingOnce(s[1..], id);
    }
  }

  lemma BalanceShutdown(c: Core, sendAck: bool, id: RequestId)
    requires Ownership(c) && Balanced(c, id)
    ensures Balanced(BeginShutdown(c, sendAck), id)
  {
    if !c.t.shutdown {
      DrainQueued(c.t.pending, c.t.active);
      AscendingOnce(c.t.pending, id);
    }
  }

  lemma BalanceAdmit(c: Core, newcomer: RequestId, valid: bool, id: RequestId)
    requires Recorded(c.t, c.accepted) && Balanced(c, id)
    ensures Balanced(HandleSynthesize(c, newcomer, valid), id)
  {
  }

  lemma BalanceCancel(c: Core, target: RequestId, id: RequestId)
    requires Recorded(c.t, c.accepted) && Balanced(c, id)
    ensures Balanced(HandleCancel(c, target), id)
  {
    CancelSlot(c.t, target, id);
  }

  lemma CancelSlot(t: Table, target: RequestId, id: RequestId)
    ensures var (t', o) := Cancel(t, target);
      if o.CancelledNow? && id == target then id in t.active && !t.active[id].terminal && id !in t'.active
      else (id in t'.active <==> id in t.active) && (id in t.active ==> t'.active[id].terminal == t.active[id].terminal)
  {
  }

  lemma BalanceFatal(c: Core, id: RequestId)
    requires Balanced(c, id)
    ensures Balanced(c.(t := FailFatal(c.t)), id)
  {
  }

  lemma BalanceReader(c: Core, l: ReaderLabel, id: RequestId)
    requires Ownership(c) && Balanced(c, id) && ReaderEnabled(c, l)
    ensures Balanced(ReaderStep(c, l), id)
  {
    match l
    case Synthesize(newcomer, valid) => BalanceAdmit(c, newcomer, valid, id);
    case CancelRequest(target) => BalanceCancel(c, target, id);
    case Shutdown(_, _) => BalanceShutdown(c, true, id);
    case EndOfInput => BalanceShutdown(c, false, id);
    case ParserFatal => BalanceFatal(c, id);
    case _ =>
  }

  lemma BalanceEngine(c: Core, l: EngineLabel, id: RequestId)
    requires Ownership(c) && Balanced(c, id) && EngineEnabled(c, l)
    ensures Balanced(EngineStep(c, l), id)
  {
  }

  lemma AccountedStep(c: Core, l: Label)
    requires Ownership(c) && Accounted(c) && Enabled(c, l)
    ensures Accounted(Apply(c, l))
  {
    forall id ensures Balanced(Apply(c, l), id) {
      match l
      case OfReader(r) => BalanceReader(c, r, id);
      case OfEngine(e) => BalanceEngine(c, e, id);
      case OfSend(s) => BalanceFatal(c, id);
    }
  }

  // ----- frames of one request -----

  lemma {:induction false} PhaseUntouched(p: Phase, out: seq<Frame>, id: RequestId)
    requires !Mentions(out, id)
    ensures PhaseOf(p, out, id) == p
  {
    if out != [] {
      PhaseUntouched(p, out[..|out| - 1], id);
      assert !Touches(out[|out| - 1], id);
    }
  }

  lemma {:induction false} PhaseHead(p: Phase, out: seq<Frame>, id: RequestId)
    requires out != []
    ensures PhaseOf(p, out, id) == PhaseOf(Advance(p, out[0], id), out[1..], id)
  {
    var init := out[..|out| - 1];
    if init != [] {
      PhaseHead(p, init, id);
      assert out[1..][..|out[1..]| - 1] == init[1..];
    } else {
      assert out[1..] == [];
    }
  }

  lemma PhaseAppend(p: Phase, log: seq<Frame>, f: Frame, id: RequestId)
    ensures PhaseOf(p, log + [f], id) == Advance(PhaseOf(p, log, id), f, id)
  {
    assert (log + [f])[..|log|] == log;
  }

  lemma MentionsParts(out: seq<Frame>, id: RequestId)
    requires out != []
    ensures Mentions(out, id) <==> Touches(out[0], id) || Mentions(out[1..], id)
  {
    assert out == [out[0]] + out[1..];
    if Mentions(out[1..], id) {
      var i :| 0 <= i < |out[1..]| && Touches(out[1..][i], id);
      assert Touches(out[i + 1], id);
    }
  }

  lemma {:induction false} PhaseCancels(p: Phase, ids: seq<RequestId>, id: RequestId)
    requires Ascending(ids)
    ensures Mentions(CancelFrames(ids), id) <==> id in ids
    ensures id in ids && p.Fresh? ==> PhaseOf(p, CancelFrames(ids), id).Closed?
    ensures id !in ids ==> PhaseOf(p, CancelFrames(ids), id) == p
    decreases ids
  {
    var fs := CancelFrames(ids);
    if ids != [] {
      AscendingTail(ids);
      assert fs[1..] == CancelFrames(ids[1..]);
      PhaseHead(p, fs, id);
      MentionsParts(fs, id);
      PhaseCancels(Advance(p, fs[0], id), ids[1..], id);
    }
  }

  lemma FrameShutdown(c: Core, sendAck: bool, id: RequestId)
    requires Ownership(c) && FramedAt(c, id) && ReaderIdle(c) && !c.t.shutdown
    ensures FramedAt(BeginShutdown(c, sendAck), id)
  {
    ShutdownSlot(c.t, sendAck, id);
    PhaseCancels(PhaseOf(Fresh, c.log, id), c.t.pending, id);
    if id in c.t.pending {
      PhaseUntouched(PhaseOf(Fresh, c.log, id), c.eOut, id);
      PhaseUntouched(Closed, c.eOut, id);
    }
  }

  lemma ShutdownSlot(t: Table, sendAck: bool, id: RequestId)
    requires Coherent(t) && !t.shutdown
    ensures var (t', ids) := RequestShutdown(t, sendAck);
      ids == t.pending && (id in t'.active <==> id in t.active && id !in t.pending) &&
      (id in t'.active ==> t'.active[id].state == t.active[id].state)
  {
    DrainQueued(t.pending, t.active);
  }

  lemma FrameAdmit(c: Core, newcomer: RequestId, valid: bool, id: RequestId)
    requires Ownership(c) && FramedAt(c, id) && ReaderIdle(c)
    ensures FramedAt(HandleSynthesize(c, newcomer, valid), id)
  {
    var c' := HandleSynthesize(c, newcomer, valid);
    assert !Mentions(c'.rOut, id);
    PhaseUntouched(PhaseOf(Fresh, c.log, id), c'.rOut, id);
  }

  lemma SingleFrame(p: Phase, f: Frame, id: RequestId)
    ensures PhaseOf(p, [f], id) == Advance(p, f, id)
    ensures Mentions([f], id) <==> Touches(f, id)
  {
    assert [f][..0] == [];
    assert [f][0] == f;
  }

  lemma FrameCancel(c: Core, target: RequestId, id: RequestId)
    requires Ownership(c) && FramedAt(c, id) && ReaderIdle(c)
    ensures FramedAt(HandleCancel(c, target), id)
  {
    CancelSlot(c.t, target, id);
    CancelState(c.t, target, id);
    var before := PhaseOf(Fresh, c.log, id);
    SingleFrame(before, Cancelled(target), id);
    SingleFrame(before, Rejected(target), id);
    if !Mentions(c.eOut, id) {
      PhaseUntouched(before, c.eOut, id);
      PhaseUntouched(Closed, c.eOut, id);
    }
  }

  lemma CancelState(t: Table, target: RequestId, id: RequestId)
    ensures var t' := Cancel(t, target).0;
      id in t'.active ==> id in t.active && t'.active[id].state == t.active[id].state
    ensures Cancel(t, target).1.CancelledNow? ==> target in t.active && t.active[target].state.Queued?
  {
  }

  lemma FrameFatal(c: Core, id: RequestId)
    requires FramedAt(c, id)
    ensures FramedAt(c.(t := FailFatal(c.t)), id)
  {
  }

  /** A frame that belongs to no request's life changes no request's phase. */
  lemma FrameNeutral(c: Core, f: Frame, id: RequestId)
    requires FramedAt(c, id) && ReaderIdle(c) && !Touches(f, id)
    ensures FramedAt(c.(rOut := [f]), id)
  {
    SingleFrame(PhaseOf(Fresh, c.log, id), f, id);
  }

  lemma FrameReader(c: Core, l: ReaderLabel, id: RequestId)
    requires Ownership(c) && Progress(c) && FramedAt(c, id) && ReaderEnabled(c, l)
    ensures FramedAt(ReaderStep(c, l), id)
  {
    match l
    case Synthesize(newcomer, valid) => FrameAdmit(c, newcomer, valid, id);
    case CancelRequest(target) => FrameCancel(c, target, id);
    case Shutdown(s, ok) =>
      if s != 0 || !ok {
        FrameNeutral(c, Rejected(s), id);
      } else {
        FrameShutdown(c, true, id);
      }
    case EndOfInput => FrameShutdown(c, false, id);
    case ParserFatal => FrameFatal(c, id);
    case Hello(h) => FrameNeutral(c, Ready, id); FrameNeutral(c, Rejected(h), id);
    case Ping(h) => FrameNeutral(c, Pong, id); FrameNeutral(c, Rejected(h), id);
    case Reject(h) => FrameNeutral(c, Rejected(h), id);
    case _ =>
  }

  lemma FrameRelease(c: Core, id: RequestId)
    requires Ownership(c) && FramedAt(c, id) && EngineEnabled(c, ReleaseSlot)
    ensures FramedAt(EngineStep(c, ReleaseSlot), id)
  {
    SingleFrame(PhaseOf(PhaseOf(Fresh, c.log, id), c.rOut, id), c.ePc.last, id);
  }

  lemma FrameSpeak(c: Core, l: EngineLabel, id: RequestId)
    requires Ownership(c) && FramedAt(c, id) && EngineEnabled(c, l)
    requires l.Begin? || l.EmitAudio? || l.Acknowledge?
    ensures FramedAt(EngineStep(c, l), id)
  {
    var c' := EngineStep(c, l);
    if c'.eOut != [] {
      SingleFrame(PhaseOf(PhaseOf(Fresh, c.log, id), c.rOut, id), c'.eOut[0], id);
      assert c'.eOut == [c'.eOut[0]];
    }
  }

  lemma FrameEngine(c: Core, l: EngineLabel, id: RequestId)
    requires Ownership(c) && FramedAt(c, id) && EngineEnabled(c, l)
    ensures FramedAt(EngineStep(c, l), id)
  {
    if l.ReleaseSlot? {
      FrameRelease(c, id);
    } else if l.Begin? || l.EmitAudio? || l.Acknowledge? {
      FrameSpeak(c, l, id);
    }
  }

  lemma FrameSend(c: Core, l: SendLabel, id: RequestId)
    requires FramedAt(c, id) && SendEnabled(c, l)
    ensures !SendStep(c, l).dropped ==> FramedAt(SendStep(c, l), id)
  {
    match l
    case ReaderSend =>
      PhaseAppend(Fresh, c.log, c.rOut[0], id);
      PhaseHead(PhaseOf(Fresh, c.log, id), c.rOut, id);
      MentionsParts(c.rOut, id);
    case EngineSend =>
      PhaseAppend(Fresh, c.log, c.eOut[0], id);
      MentionsParts(c.eOut, id);
      var before := PhaseOf(Fresh, c.log, id);
      PhaseHead(PhaseOf(before, c.rOut, id), c.eOut, id);
      if !Mentions(c.rOut, id) {
        PhaseUntouched(before, c.rOut, id);
        PhaseUntouched(Advance(before, c.eOut[0], id), c.rOut, id);
      }
    case ReaderFatal => FrameFatal(c, id);
    case EngineFatal => FrameFatal(c, id);
    case _ =>
  }

  lemma FramedStep(c: Core, l: Label)
    requires Ownership(c) && Progress(c) && Framed(c) && Enabled(c, l)
    ensures !Apply(c, l).dropped ==> Framed(Apply(c, l))
  {
    forall id | !Apply(c, l).dropped ensures FramedAt(Apply(c, l), id) {
      match l
      case OfReader(r) => FrameReader(c, r, id);
      case OfEngine(e) => FrameEngine(c, e, id);
      case OfSend(s) => FrameSend(c, s, id);
    }
  }

  // ----- requests start in id order -----

  lemma OrderSynthesize(c: Core, id: RequestId, valid: bool)
    requires Ordered(c)
    ensures Ordered(HandleSynthesize(c, id, valid))
  {
  }

  lemma OrderCancel(c: Core, id: RequestId)
    requires Ordered(c) && ReaderIdle(c)
    ensures Ordered(HandleCancel(c, id))
  {
    WithoutMember(c.t.pending, id);
    CancelQueue(c.t, id);
  }

  lemma CancelQueue(t: Table, id: RequestId)
    ensures var t' := Cancel(t, id).0;
      (t'.pending == t.pending || t'.pending == Without(t.pending, id)) && t'.highWater == t.highWater && t'.limit == t.limit
  {
  }

  lemma OrderReader(c: Core, l: ReaderLabel)
    requires Ordered(c) && ReaderEnabled(c, l)
    ensures Ordered(ReaderStep(c, l))
  {
    match l
    case Synthesize(id, valid) => OrderSynthesize(c, id, valid);
    case CancelRequest(id) => OrderCancel(c, id);
    case _ =>
  }

  lemma OrderEngine(c: Core, l: EngineLabel)
    requires Ownership(c) && Ordered(c) && EngineEnabled(c, l)
    ensures Ordered(EngineStep(c, l))
  {
    if l.Take? {
      AscendingTail(c.t.pending);
    }
  }

  lemma OrderSend(c: Core, l: SendLabel)
    requires Progress(c) && Ordered(c) && SendEnabled(c, l)
    ensures Ordered(SendStep(c, l))
  {
    var c' := SendStep(c, l);
    assert c.eOut != [] ==> c.eOut[1..] == [];
    assert c.rOut != [] ==> (c.log + [c.rOut[0]])[..|c.log|] == c.log;
    assert c.eOut != [] ==> (c.log + [c.eOut[0]])[..|c.log|] == c.log;
  }

  lemma OrderedStep(c: Core, l: Label)
    requires Ownership(c) && Progress(c) && Ordered(c) && Enabled(c, l)
    ensures Ordered(Apply(c, l))
  {
    match l
    case OfReader(r) => OrderReader(c, r);
    case OfEngine(e) => OrderEngine(c, e);
    case OfSend(s) => OrderSend(c, s);
  }

  // ----- the acknowledgement comes last -----

  lemma AckAppend(log: seq<Frame>, f: Frame, accepted: set<RequestId>)
    requires ClosedBeforeAck(log, accepted)
    requires f == ShutdownAck ==> forall id :: id in accepted ==> PhaseOf(Fresh, log, id).Closed?
    ensures ClosedBeforeAck(log + [f], accepted)
  {
    forall p, id | 0 <= p < |log + [f]| && (log + [f])[p] == ShutdownAck && id in accepted
      ensures PhaseOf(Fresh, (log + [f])[..p], id).Closed?
    {
      assert (log + [f])[..p] == log[..p];
      assert p == |log| ==> log[..p] == log;
    }
  }

  /** Once the engine has left the loop of a run without fatal errors, every accepted
      request is closed in the log. */
  lemma AllClosed(c: Core, id: RequestId)
    requires Ownership(c) && Progress(c) && FramedAt(c, id) && id in c.accepted
    requires c.ePc.Done? && !c.t.fatal && (c.eOut == [] || c.eOut == [ShutdownAck])
    ensures PhaseOf(Fresh, c.log, id).Closed?
  {
    assert c.rOut == [];
    assert id in c.t.active ==> id in c.t.pending;
    SingleFrame(PhaseOf(Fresh, c.log, id), ShutdownAck, id);
  }

  lemma AckSend(c: Core, l: SendLabel)
    requires Ownership(c) && Progress(c) && AckLast(c) && SendEnabled(c, l)
    requires !c.dropped ==> Framed(c)
    ensures AckLast(SendStep(c, l))
  {
    if l.ReaderSend? && !c.t.fatal && !c.dropped {
      AckAppend(c.log, c.rOut[0], c.accepted);
    } else if l.EngineSend? && !c.t.fatal && !c.dropped {
      forall id | id in c.accepted && c.eOut[0] == ShutdownAck ensures PhaseOf(Fresh, c.log, id).Closed? {
        assert FramedAt(c, id);
        AllClosed(c, id);
      }
      AckAppend(c.log, c.eOut[0], c.accepted);
    }
  }

  lemma AckSynthesize(c: Core, id: RequestId, valid: bool)
    requires Progress(c) && AckLast(c) && ReaderIdle(c)
    ensures AckLast(HandleSynthesize(c, id, valid))
  {
  }

  lemma AckCancel(c: Core, id: RequestId)
    requires AckLast(c)
    ensures AckLast(HandleCancel(c, id))
  {
    CancelKeepsFlags(c.t, id);
    CancelFrame(c, id);
    AckFrame(c, HandleCancel(c, id));
  }

  lemma CancelKeepsFlags(t: Table, id: RequestId)
    ensures Cancel(t, id).0.fatal == t.fatal && Cancel(t, id).0.ackNeeded == t.ackNeeded
  {
  }

  lemma CancelFrame(c: Core, id: RequestId)
    ensures var d := HandleCancel(c, id);
      && (d.t == c.t || d.t == Cancel(c.t, id).0) && (d.rOut == c.rOut || (|d.rOut| == 1 && !d.rOut[0].ShutdownAck?))
      && d.log == c.log && d.eOut == c.eOut && d.ePc == c.ePc && d.dropped == c.dropped && d.accepted == c.accepted
  {
  }

  /** A step that moves only the table and the reader's frames. */
  lemma AckFrame(c: Core, d: Core)
    requires AckLast(c) && d.t.fatal == c.t.fatal && d.t.ackNeeded == c.t.ackNeeded && ShutdownAck !in d.rOut
    requires d.log == c.log && d.eOut == c.eOut && d.ePc == c.ePc && d.dropped == c.dropped && d.accepted == c.accepted
    ensures AckLast(d)
  {
  }

  lemma AckShutdown(c: Core, ack: bool)
    requires Progress(c) && AckLast(c) && ReaderIdle(c) && c.rPc.Reading?
    ensures AckLast(BeginShutdown(c, ack))
  {
  }

  lemma AckReader(c: Core, l: ReaderLabel)
    requires Progress(c) && AckLast(c) && ReaderEnabled(c, l)
    ensures AckLast(ReaderStep(c, l))
  {
    match l
    case Synthesize(id, valid) => AckSynthesize(c, id, valid);
    case CancelRequest(id) => AckCancel(c, id);
    case Shutdown(_, _) => AckShutdown(c, true);
    case EndOfInput => AckShutdown(c, false);
    case _ =>
  }

  lemma AckEngine(c: Core, l: EngineLabel)
    requires Ownership(c) && Progress(c) && AckLast(c) && EngineEnabled(c, l)
    ensures AckLast(EngineStep(c, l))
  {
  }

  lemma AckStep(c: Core, l: Label)
    requires Ownership(c) && Progress(c) && AckLast(c) && Enabled(c, l)
    requires !c.dropped ==> Framed(c)
    ensures AckLast(Apply(c, l))
  {
    match l
    case OfReader(r) => AckReader(c, r);
    case OfEngine(e) => AckEngine(c, e);
    case OfSend(s) => AckSend(c, s);
  }

  // ----- every run -----

  lemma {:induction false} RunOwnership(limit: nat, schedule: seq<Label>)
    ensures Ownership(Run(limit, schedule))
  {
    if schedule != [] {
      var before, l := schedule[..|schedule| - 1], schedule[|schedule| - 1];
      RunOwnership(limit, before);
      if Enabled(Run(limit, before), l) {
        OwnershipStep(Run(limit, before), l);
      }
    }
  }

  lemma {:induction false} RunProgress(limit: nat, schedule: seq<Label>)
    ensures Progress(Run(limit, schedule))
  {
    if schedule != [] {
      var before, l := schedule[..|schedule| - 1], schedule[|schedule| - 1];
      RunProgress(limit, before);
      if Enabled(Run(limit, before), l) {
        ProgressStep(Run(limit, before), l);
      }
    }
  }

  lemma {:induction false} RunAccounted(limit: nat, schedule: seq<Label>)
    ensures Accounted(Run(limit, schedule))
  {
    if schedule != [] {
      var before, l := schedule[..|schedule| - 1], schedule[|schedule| - 1];
      RunOwnership(limit, before);
      RunAccounted(limit, before);
      if Enabled(Run(limit, before), l) {
        AccountedStep(Run(limit, before), l);
      }
    }
  }

  lemma {:induction false} RunOrdered(limit: nat, schedule: seq<Label>)
    ensures Ordered(Run(limit, schedule))
  {
    if schedule != [] {
      var before, l := schedule[..|schedule| - 1], schedule[|schedule| - 1];
      RunOwnership(limit, before);
      RunProgress(limit, before);
      RunOrdered(limit, before);
      if Enabled(Run(limit, before), l) {
        OrderedStep(Run(limit, before), l);
      }
    }
  }

  lemma {:induction false} RunFramed(limit: nat, schedule: seq<Label>)
    ensures !Run(limit, schedule).dropped ==> Framed(Run(limit, schedule))
  {
    if schedule != [] {
      var before, l := schedule[..|schedule| - 1], schedule[|schedule| - 1];
      RunOwnership(limit, before);
      RunProgress(limit, before);
      RunFramed(limit, before);
      if Enabled(Run(limit, before), l) {
        if !Run(limit, schedule).dropped {
          FramedStep(Run(limit, before), l);
        }
      }
    }
  }

  lemma {:induction false} RunAckLast(limit: nat, schedule: seq<Label>)
    ensures AckLast(Run(limit, schedule))
  {
    if schedule != [] {
      var before, l := schedule[..|schedule| - 1], schedule[|schedule| - 1];
      RunOwnership(limit, before);
      RunProgress(limit, before);
      RunFramed(limit, before);
      RunAckLast(limit, before);
      if Enabled(Run(limit, before), l) {
        AckStep(Run(limit, before), l);
      }
    }
  }

  // ----- what the phases mean -----

  lemma {:induction false} BrokenStays(out: seq<Frame>, id: RequestId)
    ensures PhaseOf(Broken, out, id).Broken?
  {
    if out != [] {
      BrokenStays(out[..|out| - 1], id);
    }
  }

  lemma {:induction false} ClosedMeansEnded(log: seq<Frame>, id: RequestId)
    requires !PhaseOf(Fresh, log, id).Broken?
    ensures PhaseOf(Fresh, log, id).Closed? <==> exists i :: 0 <= i < |log| && Ends(log[i], id)
  {
    if log != [] {
      var init, n := log[..|log| - 1], |log| - 1;
      ClosedMeansEnded(init, id);
      if i :| 0 <= i < |log| && Ends(log[i], id) {
        assert i < n ==> Ends(init[i], id);
      }
      if i :| 0 <= i < |init| && Ends(init[i], id) {
        assert Ends(log[i], id);
      }
    }
  }

  lemma {:induction false} NothingAfterEnd(log: seq<Frame>, id: RequestId)
    requires !PhaseOf(Fresh, log, id).Broken?
    ensures forall i, j :: 0 <= i < j < |log| && Ends(log[i], id) ==> !Touches(log[j], id)
  {
    if log != [] {
      var init, n := log[..|log| - 1], |log| - 1;
      NothingAfterEnd(init, id);
      ClosedMeansEnded(init, id);
      forall i, j | 0 <= i < j < |log| && Ends(log[i], id) ensures !Touches(log[j], id) {
        assert Ends(init[i], id);
        if j < n {
          assert !Touches(init[j], id);
        }
      }
    }
  }

  lemma {:induction false} AudioAfterStart(log: seq<Frame>, id: RequestId)
    requires !PhaseOf(Fresh, log, id).Broken?
    ensures PhaseOf(Fresh, log, id).Live? ==> Started(id) in log
    ensures forall j :: 0 <= j < |log| && log[j].Audio? && log[j].id == id ==> Started(id) in log[..j]
  {
    if log != [] {
      var init, n := log[..|log| - 1], |log| - 1;
      AudioAfterStart(init, id);
      assert log == init + [log[n]];
      forall j | 0 <= j < |log| && log[j].Audio? && log[j].id == id ensures Started(id) in log[..j] {
        assert log[..j] == init[..j];
        assert j == n ==> init[..j] == init;
      }
    }
  }

  lemma {:induction false} StartsIncrease(log: seq<Frame>)
    requires StartsAscend(log)
    ensures forall i :: 0 <= i < |log| && log[i].Started? ==> log[i].id <= LastStart(log)
    ensures forall i, j :: 0 <= i < j < |log| && log[i].Started? && log[j].Started? ==> log[i].id < log[j].id
  {
    if log != [] {
      StartsIncrease(log[..|log| - 1]);
    }
  }

  lemma NotBroken(limit: nat, schedule: seq<Label>, id: RequestId)
    ensures var c := Run(limit, schedule); !c.dropped ==> !PhaseOf(Fresh, c.log, id).Broken?
  {
    var c := Run(limit, schedule);
    RunFramed(limit, schedule);
    if !c.dropped {
      assert FramedAt(c, id);
      BrokenStays(c.rOut, id);
      BrokenStays(c.eOut, id);
    }
  }

  // ----- theorems -----

  lemma LimitShutdown(c: Core, sendAck: bool)
    ensures BeginShutdown(c, sendAck).t.limit == c.t.limit
  {
  }

  lemma LimitReader(c: Core, l: ReaderLabel)
    requires ReaderEnabled(c, l)
    ensures ReaderStep(c, l).t.limit == c.t.limit
  {
    match l
    case CancelRequest(id) => CancelQueue(c.t, id);
    case Shutdown(_, _) => LimitShutdown(c, true);
    case EndOfInput => LimitShutdown(c, false);
    case _ =>
  }

  lemma LimitStep(c: Core, l: Label)
    requires Enabled(c, l)
    ensures Apply(c, l).t.limit == c.t.limit
  {
    match l
    case OfReader(r) => LimitReader(c, r);
    case OfEngine(e) => LimitEngine(c, e);
    case OfSend(s) => LimitSend(c, s);
  }

  lemma LimitEngine(c: Core, l: EngineLabel)
    requires EngineEnabled(c, l)
    ensures EngineStep(c, l).t.limit == c.t.limit
  {
    if l.Take? {
      assert EngineStep(c, l).t == TakeNext(c.t);
    } else if l.ReleaseSlot? {
      assert EngineStep(c, l).t == Release(c.t, c.ePc.id);
    } else if !l.Exchange? {
      assert EngineStep(c, l).t == c.t;
    }
  }

  lemma LimitSend(c: Core, l: SendLabel)
    requires SendEnabled(c, l)
    ensures SendStep(c, l).t.limit == c.t.limit
  {
  }

  lemma {:induction false} LimitKept(limit: nat, schedule: seq<Label>)
    ensures Run(limit, schedule).t.limit == limit
  {
    if schedule != [] {
      var before, l := Run(limit, schedule[..|schedule| - 1]), schedule[|schedule| - 1];
      LimitKept(limit, schedule[..|schedule| - 1]);
      if Enabled(before, l) {
        LimitStep(before, l);
      }
    }
  }

  /** In every interleaving the admission counter is the number of admitted requests and
      within the limit, and the queue is exactly their queued, non-terminal part. */
  lemma AdmissionConserved(limit: nat, schedule: seq<Label>)
    ensures var c := Run(limit, schedule);
      c.t.admitted == |c.t.active| <= limit && Ascending(c.t.pending) &&
      forall id :: id in c.t.pending <==> IsQueued(c.t, id)
  {
    RunOwnership(limit, schedule);
    LimitKept(limit, schedule);
  }

  /** Every accepted request is claimed by exactly one of cancel, shutdown and engine once it
      is finished, by none before; and when `run` returns nothing is left in the table. */
  lemma TerminatedExactlyOnce(limit: nat, schedule: seq<Label>, id: RequestId)
    ensures var c := Run(limit, schedule);
      (id in c.accepted ==> (ClaimCount(c.claims, id) == if Finished(c.accepted, c.t.active, id) then 1 else 0)) &&
      (id !in c.accepted ==> ClaimCount(c.claims, id) == 0) &&
      (c.rPc.Draining? || c.rPc.Returned? ==>
         c.t.active == map[] && c.t.pending == [] && c.t.admitted == 0 &&
         (id in c.accepted ==> ClaimCount(c.claims, id) == 1))
  {
    var c := Run(limit, schedule);
    RunOwnership(limit, schedule);
    RunProgress(limit, schedule);
    RunAccounted(limit, schedule);
    assert Balanced(c, id);
    if c.rPc.Draining? || c.rPc.Returned? {
      assert forall x :: x in c.t.active ==> x in c.t.pending || x in Owner(c.ePc);
      assert c.t.active == map[];
    }
  }

  /** As long as no frame was lost: a request's audio lies strictly between its Started and
      its terminal frame, it has at most one terminal frame, and Started ids increase. */
  lemma RequestFramesInOrder(limit: nat, schedule: seq<Label>, id: RequestId)
    ensures var c := Run(limit, schedule); var log := c.log;
      (!c.dropped ==>
        (forall i, j :: 0 <= i < j < |log| && Ends(log[i], id) ==> !Touches(log[j], id)) &&
        (forall j :: 0 <= j < |log| && log[j].Audio? && log[j].id == id ==> Started(id) in log[..j])) &&
      (forall i, j :: 0 <= i < j < |log| && log[i].Started? && log[j].Started? ==> log[i].id < log[j].id)
  {
    var c := Run(limit, schedule);
    NotBroken(limit, schedule, id);
    RunOrdered(limit, schedule);
    StartsIncrease(c.log);
    if !c.dropped {
      NothingAfterEnd(c.log, id);
      AudioAfterStart(c.log, id);
    }
  }

  /** In a run without fatal errors the shutdown acknowledgement is submitted after the
      terminal frame of every accepted request, and it is submitted if it was asked for. */
  lemma AcknowledgedAfterAll(limit: nat, schedule: seq<Label>, p: nat, id: RequestId)
    ensures var c := Run(limit, schedule);
      !c.t.fatal && !c.rFail && !c.eFail ==>
        (p < |c.log| && c.log[p] == ShutdownAck && id in c.accepted ==>
           exists k :: 0 <= k < p && Ends(c.log[k], id)) &&
        (c.rPc.Draining? || c.rPc.Returned? ==>
           (c.t.ackNeeded ==> ShutdownAck in c.log) &&
           (id in c.accepted ==> exists k :: 0 <= k < |c.log| && Ends(c.log[k], id)))
  {
    var c := Run(limit, schedule);
    RunProgress(limit, schedule);
    RunAckLast(limit, schedule);
    if !c.t.fatal && !c.rFail && !c.eFail {
      if p < |c.log| && c.log[p] == ShutdownAck && id in c.accepted {
        ClosedMeansEnded(c.log[..p], id);
        var k :| 0 <= k < |c.log[..p]| && Ends(c.log[..p][k], id);
        assert Ends(c.log[k], id);
      }
      if (c.rPc.Draining? || c.rPc.Returned?) && id in c.accepted {
        RunOwnership(limit, schedule);
        RunFramed(limit, schedule);
        assert FramedAt(c, id);
        AllClosed(c, id);
        ClosedMeansEnded(c.log, id);
      }
    }
  }

  ghost predicate Wired(enc: Frame -> seq<Byte>, s: System) {
    s.w.submitted == s.core.log && OutputStream.Valid(enc, s.w)
  }

  lemma WiredStep(enc: Frame -> seq<Byte>, s: System, l: SystemLabel)
    requires Wired(enc, s) && SystemEnabled(enc, s, l)
    ensures Wired(enc, SystemStep(enc, s, l))
  {
    match l
    case WriterTurn(step) => OutputStream.StepKeepsValid(enc, s.w, step);
    case CoreTurn(turn) =>
      LogGrows(s.core, turn);
      if turn == OfSend(ReaderSend) {
        OutputStream.OfferKeepsValid(enc, s.w, s.core.rOut[0]);
      } else if turn == OfSend(EngineSend) {
        OutputStream.OfferKeepsValid(enc, s.w, s.core.eOut[0]);
      }
  }

  /** Only the two sending steps touch the log. */
  lemma LogGrows(c: Core, l: Label)
    requires Enabled(c, l)
    ensures Apply(c, l).log ==
      if l == OfSend(ReaderSend) then c.log + [c.rOut[0]]
      else if l == OfSend(EngineSend) then c.log + [c.eOut[0]] else c.log
  {
  }

  /** The threads and the writer together do what the threads alone can do, and the writer
      is handed exactly their log. */
  lemma {:induction false} SystemRefinesCore(enc: Frame -> seq<Byte>, limit: nat, schedule: seq<SystemLabel>)
    returns (turns: seq<Label>)
    ensures var s := RunSystem(enc, limit, schedule); s.core == Run(limit, turns) && Wired(enc, s)
  {
    turns := [];
    if schedule != [] {
      var before, l := schedule[..|schedule| - 1], schedule[|schedule| - 1];
      turns := SystemRefinesCore(enc, limit, before);
      var s := RunSystem(enc, limit, before);
      if SystemEnabled(enc, s, l) {
        WiredStep(enc, s, l);
        if l.CoreTurn? {
          assert (turns + [l.l])[..|turns|] == turns;
          turns := turns + [l.l];
        }
      }
    }
  }

  /** Stdout is always a prefix of the submitted frames in order, at most the last one cut
      short; if the worker exits with status 0 it is all of them, and every accepted request
      has its terminal frame there. */
  lemma StdoutFaithful(enc: Frame -> seq<Byte>, limit: nat, schedule: seq<SystemLabel>, id: RequestId)
    ensures var s := RunSystem(enc, limit, schedule);
      OutputStream.InOrder(enc, s.w) && s.w.submitted == s.core.log &&
      (ReturnedSuccess(s) ==>
         s.w.stdout == OutputStream.Flat(enc, s.core.log) &&
         (id in s.core.accepted ==> exists k :: 0 <= k < |s.core.log| && Ends(s.core.log[k], id)))
  {
    var turns := SystemRefinesCore(enc, limit, schedule);
    var s := RunSystem(enc, limit, schedule);
    if ReturnedSuccess(s) {
      RunProgress(limit, turns);
      AcknowledgedAfterAll(limit, turns, 0, id);
      ExitedWhenReturned(enc, limit, schedule);
      OutputStream.DrainedCompletely(enc, s.w);
    }
  }

  lemma ReturnOnlyByReturn(c: Core, l: Label)
    requires Enabled(c, l) && Apply(c, l).rPc.Returned?
    ensures c.rPc.Returned? || l == OfReader(Return)
  {
  }

  lemma {:induction false} ExitedWhenReturned(enc: Frame -> seq<Byte>, limit: nat, schedule: seq<SystemLabel>)
    ensures var s := RunSystem(enc, limit, schedule); s.core.rPc.Returned? ==> s.w.pc.Exited?
  {
    if schedule != [] {
      var s, l := RunSystem(enc, limit, schedule[..|schedule| - 1]), schedule[|schedule| - 1];
      ExitedWhenReturned(enc, limit, schedule[..|schedule| - 1]);
      if l.CoreTurn? && Enabled(s.core, l.l) && Apply(s.core, l.l).rPc.Returned? {
        ReturnOnlyByReturn(s.core, l.l);
      }
    }
  }
}
