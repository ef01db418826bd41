/** The client joined to the worker by an ordered, reliable pipe: the ids one client session
    sends never trip the worker's duplicate rule. */
module EndToEnd {
  import Out = ClientOutbound
  import Client
  import RequestTable
  import WorkerProtocol
  import WorkerSafety

  type RequestId = nat

  /** The ids of the synthesize frames that the worker's reader has handled. */
  function Received(limit: nat, schedule: seq<WorkerProtocol.Label>): seq<RequestId> {
    if schedule == [] then []
    else
      var before, l := schedule[..|schedule| - 1], schedule[|schedule| - 1];
      Received(limit, before) +
      (if l.OfReader? && l.r.Synthesize? && WorkerProtocol.Enabled(WorkerProtocol.Run(limit, before), l) then [l.r.id] else [])
  }

  lemma MarkOfTables(t: RequestTable.Table, id: RequestId, ack: bool)
    ensures RequestTable.Cancel(t, id).0.highWater == t.highWater
    ensures RequestTable.RequestShutdown(t, ack).0.highWater == t.highWater
    ensures RequestTable.Admit(t, id).0.highWater in {t.highWater, id}
    ensures RequestTable.Release(t, id).highWater == t.highWater && RequestTable.FailFatal(t).highWater == t.highWater
  {
  }

  lemma MarkOfReader(c: WorkerProtocol.Core, l: WorkerProtocol.ReaderLabel)
    requires WorkerProtocol.ReaderEnabled(c, l) && !l.Synthesize?
    ensures WorkerProtocol.ReaderStep(c, l).t.highWater == c.t.highWater
  {
    MarkOfTables(c.t, if l.CancelRequest? then l.id else 0, l.Shutdown?);
  }

  lemma MarkOfSynthesize(c: WorkerProtocol.Core, id: RequestId, valid: bool)
    ensures WorkerProtocol.HandleSynthesize(c, id, valid).t.highWater in {c.t.highWater, id}
  {
    MarkOfTables(c.t, id, false);
  }

  lemma MarkOfEngine(c: WorkerProtocol.Core, l: WorkerProtocol.EngineLabel)
    requires WorkerProtocol.EngineEnabled(c, l)
    ensures WorkerProtocol.EngineStep(c, l).t.highWater == c.t.highWater
  {
    if l.Take? {
      assert WorkerProtocol.EngineStep(c, l).t == RequestTable.TakeNext(c.t);
    } else if l.ReleaseSlot? {
      assert WorkerProtocol.EngineStep(c, l).t == RequestTable.Release(c.t, c.ePc.id);
    } else if !l.Exchange? {
      assert WorkerProtocol.EngineStep(c, l).t == c.t;
    }
  }

  lemma MarkOfSend(c: WorkerProtocol.Core, l: WorkerProtocol.SendLabel)
    requires WorkerProtocol.SendEnabled(c, l)
    ensures WorkerProtocol.SendStep(c, l).t.highWater == c.t.highWater
  {
  }

  /** Only a synthesize frame moves the high-water mark, and only to its own id. */
  lemma HighWaterStep(c: WorkerProtocol.Core, l: WorkerProtocol.Label)
    requires WorkerProtocol.Enabled(c, l)
    ensures var after := WorkerProtocol.Apply(c, l).t.highWater;
      after == c.t.highWater || (l.OfReader? && l.r.Synthesize? && after == l.r.id)
  {
    match l
    case OfReader(r) =>
      if r.Synthesize? {
        MarkOfSynthesize(c, r.id, r.valid);
      } else {
        MarkOfReader(c, r);
      }
    case OfEngine(e) => MarkOfEngine(c, e);
    case OfSend(x) => MarkOfSend(c, x);
  }

  /** The high-water mark is zero or an id that was received. */
  lemma {:induction false} HighWaterReceived(limit: nat, schedule: seq<WorkerProtocol.Label>)
    ensures var mark := WorkerProtocol.Run(limit, schedule).t.highWater; mark == 0 || mark in Received(limit, schedule)
  {
    if schedule != [] {
      var before, l := schedule[..|schedule| - 1], schedule[|schedule| - 1];
      HighWaterReceived(limit, before);
      var c := WorkerProtocol.Run(limit, before);
      if WorkerProtocol.Enabled(c, l) {
        HighWaterStep(c, l);
      }
    }
  }

  predicate IsPrefix(a: seq<RequestId>, b: seq<RequestId>) { |a| <= |b| && a == b[..|a|] }

  /** Whatever the client's threads do, and whatever else the worker's reader and engine do in
      between: the worker never finds an id that the client sent to be a duplicate. */
  lemma NeverDuplicate(limits: Out.Limits, calls: seq<Client.Label>, limit: nat, schedule: seq<WorkerProtocol.Label>, id: RequestId)
    requires IsPrefix(Received(limit, schedule) + [id], Client.Run(limits, calls).pipe.sent)
    ensures id != 0 && !RequestTable.IsDuplicate(WorkerProtocol.Run(limit, schedule).t, id)
  {
    var sent, got := Client.Run(limits, calls).pipe.sent, Received(limit, schedule);
    var t := WorkerProtocol.Run(limit, schedule).t;
    Client.RunPipe(limits, calls);
    assert (got + [id])[|got|] == sent[|got|] == id;
    assert Out.Line(Client.Run(limits, calls).pipe)[|got|] == id;
    HighWaterReceived(limit, schedule);
    WorkerSafety.RunOwnership(limit, schedule);
    if t.highWater in got {
      var k :| 0 <= k < |got| && got[k] == t.highWater;
      assert (got + [id])[k] == sent[k] == t.highWater;
      Client.SentIdsIncrease(limits, calls, k, |got|);
    }
  }
}
