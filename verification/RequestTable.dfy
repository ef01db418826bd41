/** The state that the native worker's reader and engine threads share under one
    mutex: the queue of waiting requests, the map of admitted ones, the admission
    counter, the id high-water mark and the shutdown flags. Each function is one
    lock region (or one atomic exchange) of the worker; the class below holds the
    same fields and performs the same regions in place. */
module RequestTable {
  type RequestId = nat

  datatype SlotState = Queued | Running
  datatype Slot = Slot(state: SlotState, cancelled: bool, terminal: bool)

  datatype Table = Table(
    pending: seq<RequestId>,
    active: map<RequestId, Slot>,
    admitted: nat,
    limit: nat,
    highWater: RequestId,
    ready: bool,
    shutdown: bool,
    ackNeeded: bool,
    terminalsEnqueued: bool,
    fatal: bool)

  datatype Admission = Accepted(position: nat) | ShuttingDown | Duplicate | Exhausted
  datatype CancelOutcome = UnknownRequest | CancelledNow | FlaggedOnly | AlreadyFinished

  function Initial(limit: nat): Table {
    Table([], map[], 0, limit, 0, false, false, false, false, false)
  }

  /** Unsigned decrement of a 64-bit counter, wrap-around included. */
  function Decrement(n: nat): nat {
    if n == 0 then 0xFFFF_FFFF_FFFF_FFFF else n - 1
  }

  function Without(s: seq<RequestId>, id: RequestId): seq<RequestId> {
    if s == [] then []
    else if s[0] == id then Without(s[1..], id)
    else [s[0]] + Without(s[1..], id)
  }

  function CancelAll(active: map<RequestId, Slot>): map<RequestId, Slot> {
    map id | id in active :: active[id].(cancelled := true)
  }

  predicate IsDuplicate(t: Table, id: RequestId) {
    id in t.active || id <= t.highWater
  }

  function Admit(t: Table, id: RequestId): (Table, Admission) {
    if t.shutdown then (t, ShuttingDown)
    else if IsDuplicate(t, id) then (t, Duplicate)
    else if t.admitted >= t.limit then (t, Exhausted)
    else
      (t.(highWater := id,
          admitted := t.admitted + 1,
          active := t.active[id := Slot(Queued, false, false)],
          pending := t.pending + [id]),
       Accepted(|t.pending| + 1))
  }

  function Cancel(t: Table, id: RequestId): (Table, CancelOutcome) {
    if id !in t.active then
      (t, if id > t.highWater then UnknownRequest else AlreadyFinished)
    else
      var slot := t.active[id].(cancelled := true);
      if slot.state.Running? then
        (t.(active := t.active[id := slot]), FlaggedOnly)
      else if slot.terminal then
        (t.(active := t.active[id := slot], pending := Without(t.pending, id)), FlaggedOnly)
      else
        (t.(active := t.active - {id},
            admitted := Decrement(t.admitted),
            pending := Without(t.pending, id)),
         CancelledNow)
  }

  datatype Drained = Drained(active: map<RequestId, Slot>, admitted: nat, ids: seq<RequestId>)

  /** The shutdown loop: pops the queue from the front and releases every slot it
      is the first to mark terminal; `ids` are the ones it released. */
  function Drain(pending: seq<RequestId>, active: map<RequestId, Slot>, admitted: nat): Drained {
    if pending == [] then Drained(active, admitted, [])
    else
      var id := pending[0];
      if id in active && active[id].terminal then
        Drain(pending[1..], active[id := active[id].(cancelled := true)], admitted)
      else
        var d := Drain(pending[1..], active - {id}, Decrement(admitted));
        d.(ids := [id] + d.ids)
  }

  function RequestShutdown(t: Table, sendAck: bool): (Table, seq<RequestId>) {
    var t := t.(ackNeeded := t.ackNeeded || sendAck);
    if t.shutdown then (t, [])
    else
      var d := Drain(t.pending, t.active, t.admitted);
      (t.(shutdown := true, pending := [], active := CancelAll(d.active), admitted := d.admitted), d.ids)
  }

  function TakeNext(t: Table): Table
    requires t.pending != [] && t.pending[0] in t.active
  {
    var id := t.pending[0];
    t.(pending := t.pending[1..], active := t.active[id := t.active[id].(state := Running)])
  }

  /** The locked part of terminalize: the engine releases its slot. */
  function Release(t: Table, id: RequestId): Table {
    t.(active := t.active - {id}, admitted := if t.admitted > 0 then t.admitted - 1 else 0)
  }

  function FailFatal(t: Table): Table {
    t.(fatal := true, active := CancelAll(t.active))
  }

  // ----- what every region keeps -----

  predicate Ascending(s: seq<RequestId>) {
    forall i, j :: 0 <= i < j < |s| ==> s[i] < s[j]
  }

  predicate IsQueued(t: Table, id: RequestId) {
    id in t.active && t.active[id].state.Queued? && !t.active[id].terminal
  }

  /** The admission counter counts the admitted requests; the queue lists, in id
      order and without repetition, exactly the admitted requests that are queued. */
  ghost predicate Coherent(t: Table) {
    && t.admitted == |t.active| <= t.limit
    && Ascending(t.pending)
    && (forall id :: id in t.pending <==> id in t.active && t.active[id].state.Queued?)
    && (forall id :: id in t.pending ==> IsQueued(t, id))
    && (forall id :: id in t.active ==> 0 < id <= t.highWater)
    && (t.shutdown ==> t.pending == [])
  }

  lemma AscendingTail(s: seq<RequestId>)
    requires Ascending(s) && s != []
    ensures Ascending(s[1..]) && s[0] !in s[1..]
    ensures forall x :: x in s <==> x == s[0] || x in s[1..]
  {
    assert s == [s[0]] + s[1..];
  }

  lemma WithoutMember(s: seq<RequestId>, id: RequestId)
    ensures forall x :: x in Without(s, id) <==> x in s && x != id
  {
  }

  lemma {:induction false} WithoutAscending(s: seq<RequestId>, id: RequestId)
    requires Ascending(s)
    ensures Ascending(Without(s, id))
  {
    if s != [] {
      WithoutAscending(s[1..], id);
      WithoutMember(s[1..], id);
      var w := Without(s[1..], id);
      forall i | 0 <= i < |w| ensures s[0] < w[i] {
        assert w[i] in w;
      }
    }
  }

  lemma AscendingAppend(s: seq<RequestId>, id: RequestId)
    requires Ascending(s) && forall x :: x in s ==> x < id
    ensures Ascending(s + [id])
    ensures forall x :: x in s + [id] <==> x in s || x == id
  {
    assert forall i :: 0 <= i < |s| ==> s[i] in s;
  }

  lemma AdmitCoherent(t: Table, id: RequestId)
    requires Coherent(t)
    ensures Coherent(Admit(t, id).0)
  {
    var (t', a) := Admit(t, id);
    if a.Accepted? {
      assert t'.active.Keys == t.active.Keys + {id};
      AscendingAppend(t.pending, id);
    }
  }

  lemma RemoveCount(m: map<RequestId, Slot>, id: RequestId)
    requires id in m
    ensures |m - {id}| == |m| - 1
  {
    assert (m - {id}).Keys == m.Keys - {id};
  }

  /** A queued request leaves the table and the queue. */
  lemma CancelQueued(t: Table, id: RequestId)
    requires Coherent(t) && id in t.pending
    ensures Coherent(Cancel(t, id).0) && Cancel(t, id).1.CancelledNow?
  {
    RemoveCount(t.active, id);
    WithoutMember(t.pending, id);
    WithoutAscending(t.pending, id);
  }

  /** Any other active request is only flagged. */
  lemma CancelFlags(t: Table, id: RequestId)
    requires Coherent(t) && id in t.active && id !in t.pending
    ensures Coherent(Cancel(t, id).0) && Cancel(t, id).1.FlaggedOnly?
  {
    var t' := Cancel(t, id).0;
    assert t'.active.Keys == t.active.Keys && t'.pending == t.pending;
  }

  lemma CancelCoherent(t: Table, id: RequestId)
    requires Coherent(t)
    ensures Coherent(Cancel(t, id).0)
    ensures Cancel(t, id).1.CancelledNow? <==> id in t.pending
  {
    if id in t.pending {
      CancelQueued(t, id);
    } else if id in t.active {
      CancelFlags(t, id);
    }
  }

  ghost predicate RemovesExactly(m: map<RequestId, Slot>, m': map<RequestId, Slot>, s: seq<RequestId>) {
    && (forall x :: x in m' <==> x in m && x !in s)
    && (forall x :: x in m' ==> m'[x] == m[x])
  }

  /** Draining a coherent table releases exactly the queued requests, in order. */
  lemma {:induction false} DrainQueued(pending: seq<RequestId>, active: map<RequestId, Slot>)
    requires Ascending(pending)
    requires forall id :: id in pending ==> id in active && !active[id].terminal
    ensures var d := Drain(pending, active, |active|);
      d.ids == pending && d.admitted == |d.active| && d.admitted <= |active| &&
      RemovesExactly(active, d.active, pending)
  {
    if pending != [] {
      var id, tail := pending[0], pending[1..];
      AscendingTail(pending);
      RemoveCount(active, id);
      DrainQueued(tail, active - {id});
    }
  }

  lemma ShutdownCoherent(t: Table, sendAck: bool)
    requires Coherent(t)
    ensures var (t', ids) := RequestShutdown(t, sendAck);
      Coherent(t') && t'.shutdown && t'.pending == [] &&
      (forall id :: id in t'.active <==> id in t.active && id !in t.pending) &&
      (!t.shutdown ==> ids == t.pending)
  {
    if !t.shutdown {
      DrainQueued(t.pending, t.active);
      var d := Drain(t.pending, t.active, t.admitted);
      assert CancelAll(d.active).Keys == d.active.Keys;
    }
  }

  lemma TakeCoherent(t: Table)
    requires Coherent(t) && t.pending != []
    ensures t.pending[0] in t.pending && Coherent(TakeNext(t))
  {
    var t' := TakeNext(t);
    var id := t.pending[0];
    assert id in t.pending;
    assert t'.active.Keys == t.active.Keys;
    assert forall x :: x in t.pending <==> x == id || x in t'.pending;
    assert forall i :: 0 <= i < |t'.pending| ==> t'.pending[i] == t.pending[i + 1];
  }

  lemma ReleaseCoherent(t: Table, id: RequestId)
    requires Coherent(t) && id in t.active && t.active[id].state.Running?
    ensures Coherent(Release(t, id))
  {
    RemoveCount(t.active, id);
  }

  lemma FatalCoherent(t: Table)
    requires Coherent(t)
    ensures Coherent(FailFatal(t))
  {
    assert FailFatal(t).active.Keys == t.active.Keys;
  }

  // ----- the same regions, performed in place -----

  class StdioServer {
    var pending: seq<RequestId>
    var active: map<RequestId, Slot>
    var admitted: nat
    const limit: nat
    var highWater: RequestId
    var ready: bool
    var shutdown: bool
    var ackNeeded: bool
    var terminalsEnqueued: bool
    var fatal: bool

    function View(): Table
      reads this
    {
      Table(pending, active, admitted, limit, highWater, ready, shutdown, ackNeeded, terminalsEnqueued, fatal)
    }

    constructor (maxAdmitted: nat)
      ensures View() == Initial(maxAdmitted) && Coherent(View())
    {
      pending, active, admitted, limit, highWater := [], map[], 0, maxAdmitted, 0;
      ready, shutdown, ackNeeded, terminalsEnqueued, fatal := false, false, false, false, false;
    }

    method HandleSynthesize(id: RequestId) returns (outcome: Admission)
      modifies this
      ensures (View(), outcome) == Admit(old(View()), id)
      ensures Coherent(old(View())) ==> Coherent(View())
    {
      if Coherent(View()) {
        AdmitCoherent(View(), id);
      }
      if shutdown {
        return ShuttingDown;
      }
      if id in active || id <= highWater {
        return Duplicate;
      }
      if admitted >= limit {
        return Exhausted;
      }
      highWater := id;
      admitted := admitted + 1;
      active := active[id := Slot(Queued, false, false)];
      pending := pending + [id];
      outcome := Accepted(|pending|);
    }

    /** Erase-remove over the queue. */
    static method Erase(s: seq<RequestId>, id: RequestId) returns (kept: seq<RequestId>)
      ensures kept == Without(s, id)
    {
      kept := [];
      var i := 0;
      while i < |s|
        invariant 0 <= i <= |s|
        invariant kept + Without(s[i..], id) == Without(s, id)
      {
        if s[i] != id {
          kept := kept + [s[i]];
        }
        i := i + 1;
      }
    }

    method HandleCancel(id: RequestId) returns (outcome: CancelOutcome)
      modifies this
      ensures (View(), outcome) == Cancel(old(View()), id)
      ensures Coherent(old(View())) ==> Coherent(View()) && (outcome.CancelledNow? <==> id in old(pending))
    {
      if Coherent(View()) {
        CancelCoherent(View(), id);
      }
      if id !in active {
        return if id > highWater then UnknownRequest else AlreadyFinished;
      }
      active := active[id := active[id].(cancelled := true)];
      outcome := FlaggedOnly;
      if active[id].state.Queued? {
        pending := Erase(pending, id);
        var wasTerminal := active[id].terminal;
        if !wasTerminal {
          active := active - {id};
          assert active == old(active) - {id};
          admitted := Decrement(admitted);
          outcome := CancelledNow;
        }
      }
    }

    method DrainPending() returns (cancelled: seq<RequestId>)
      modifies this`pending, this`active, this`admitted
      ensures pending == []
      ensures Drained(active, admitted, cancelled) == old(Drain(pending, active, admitted))
    {
      cancelled := [];
      while pending != []
        invariant Drain(pending, active, admitted).active == old(Drain(pending, active, admitted).active)
        invariant Drain(pending, active, admitted).admitted == old(Drain(pending, active, admitted).admitted)
        invariant cancelled + Drain(pending, active, admitted).ids == old(Drain(pending, active, admitted).ids)
        decreases |pending|
      {
        var id := pending[0];
        pending := pending[1..];
        if id in active && active[id].terminal {
          active := active[id := active[id].(cancelled := true)];
        } else {
          active := active - {id};
          admitted := Decrement(admitted);
          cancelled := cancelled + [id];
        }
      }
    }

    method RequestShutdownLocked(sendAck: bool) returns (cancelled: seq<RequestId>)
      modifies this
      ensures View() == RequestShutdown(old(View()), sendAck).0
      ensures cancelled == RequestShutdown(old(View()), sendAck).1
      ensures Coherent(old(View())) ==> Coherent(View()) && pending == [] && shutdown
    {
      if Coherent(View()) {
        ShutdownCoherent(View(), sendAck);
      }
      ackNeeded := ackNeeded || sendAck;
      cancelled := [];
      if !shutdown {
        shutdown := true;
        cancelled := DrainPending();
        active := CancelAll(active);
      }
    }

    method TakeNextRequest() returns (id: RequestId)
      requires pending != [] && pending[0] in active
      modifies this
      ensures pending == old(pending)[1..] && id == old(pending)[0]
      ensures View() == TakeNext(old(View()))
      ensures Coherent(old(View())) ==> Coherent(View())
    {
      if Coherent(View()) {
        TakeCoherent(View());
      }
      id := pending[0];
      pending := pending[1..];
      active := active[id := active[id].(state := Running)];
    }

    method Terminalize(id: RequestId) returns (first: bool)
      requires id in active
      modifies this
      ensures first == !old(active)[id].terminal
      ensures View() == if first then Release(old(View()), id) else old(View())
      ensures Coherent(old(View())) && old(active)[id].state.Running? ==> Coherent(View())
    {
      if Coherent(View()) && active[id].state.Running? {
        ReleaseCoherent(View(), id);
      }
      if active[id].terminal {
        return false;
      }
      active := active - {id};
      if admitted > 0 {
        admitted := admitted - 1;
      }
      first := true;
    }
  }
}
