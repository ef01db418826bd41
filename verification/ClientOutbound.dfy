/** The client's outbound half: id allocation, the bounded command queue with its byte
    count, and the writer that sends from it. */
module ClientOutbound {
  import opened Basics

  type RequestId = nat
  const MAX_ID := 0xFFFF_FFFF_FFFF_FFFF

  datatype Command = Command(id: RequestId, synthesize: bool, bytes: nat)
  datatype Limits = Limits(commands: nat, bytes: nat)

  /** `next` is zero once the ids are used up; `hand` is the command the writer took; `sent`
      is history: the ids of the synthesize commands that reached the worker. */
  datatype Pipe = Pipe(next: RequestId, queue: seq<Command>, queuedBytes: nat, hand: Option<Command>, sent: seq<RequestId>)

  const FRESH := Pipe(1, [], 0, None, [])

  datatype Allocation = Allocation(id: RequestId, next: RequestId)

  /** Zero asks for any id. A refused request changes nothing; the largest id ends the range. */
  function Allocate(next: RequestId, requested: RequestId, taken: bool): Allocation {
    if next == 0 then Allocation(0, next)
    else if requested != 0 && (requested < next || taken) then Allocation(0, next)
    else
      var id := if requested != 0 then requested else next;
      Allocation(id, if id == MAX_ID then 0 else id + 1)
  }

  predicate Fits(limits: Limits, p: Pipe, bytes: nat) {
    |p.queue| < limits.commands && bytes <= limits.bytes && p.queuedBytes <= limits.bytes - bytes
  }

  function Push(p: Pipe, c: Command): Pipe {
    p.(queue := p.queue + [c], queuedBytes := p.queuedBytes + c.bytes)
  }

  /** A cancel command is dropped when it does not fit. */
  function Offer(limits: Limits, p: Pipe, c: Command): Pipe {
    if Fits(limits, p, c.bytes) then Push(p, c) else p
  }

  function Renumber(p: Pipe, next: RequestId): Pipe { p.(next := next) }

  /** A synthesize command: its id is spent even when the command does not fit. */
  function Submit(limits: Limits, p: Pipe, requested: RequestId, taken: bool, bytes: nat): Pipe {
    var a := Allocate(p.next, requested, taken);
    if a.id == 0 then p else Renumber(Offer(limits, p, Command(a.id, true, bytes)), a.next)
  }

  /** The id of a submitted request, zero when it is refused. */
  function SubmittedId(limits: Limits, p: Pipe, requested: RequestId, taken: bool, bytes: nat): RequestId {
    if Fits(limits, p, bytes) then Allocate(p.next, requested, taken).id else 0
  }

  /** The writer takes the first command; the subtraction saturates, and without a session
      the command is dropped. */
  function Take(p: Pipe, session: bool): Pipe
    requires p.queue != []
  {
    var c := p.queue[0];
    p.(queue := p.queue[1..], queuedBytes := if p.queuedBytes < c.bytes then 0 else p.queuedBytes - c.bytes,
       hand := if session then Some(c) else None)
  }

  function Send(p: Pipe, ok: bool): Pipe
    requires p.hand.Some?
  {
    p.(hand := None, sent := if ok && p.hand.value.synthesize then p.sent + [p.hand.value.id] else p.sent)
  }

  function Cleared(p: Pipe): Pipe { p.(queue := [], queuedBytes := 0) }

  // ----- ids -----

  function SynthIds(queue: seq<Command>): seq<RequestId> {
    if queue == [] then []
    else (if queue[0].synthesize then [queue[0].id] else []) + SynthIds(queue[1..])
  }

  function HandIds(hand: Option<Command>): seq<RequestId> {
    if hand.Some? && hand.value.synthesize then [hand.value.id] else []
  }

  /** Sent, about to be sent, still queued. */
  function Line(p: Pipe): seq<RequestId> { p.sent + HandIds(p.hand) + SynthIds(p.queue) }

  predicate Increasing(ids: seq<RequestId>) {
    forall i, j :: 0 <= i < j < |ids| ==> ids[i] < ids[j]
  }

  /** Non-zero and allocated before `next`. */
  predicate Below(ids: seq<RequestId>, next: RequestId) {
    forall i :: 0 <= i < |ids| ==> 0 < ids[i] <= MAX_ID && (next != 0 ==> ids[i] < next)
  }

  predicate IdsOk(p: Pipe) { Increasing(Line(p)) && Below(Line(p), p.next) && p.next <= MAX_ID }

  lemma {:induction false} SynthAppend(queue: seq<Command>, c: Command)
    ensures SynthIds(queue + [c]) == SynthIds(queue) + (if c.synthesize then [c.id] else [])
  {
    var last := if c.synthesize then [c.id] else [];
    if queue == [] {
      assert (queue + [c])[1..] == [] && last + [] == last && [] + last == last;
    } else {
      var first := if queue[0].synthesize then [queue[0].id] else [];
      assert (queue + [c])[1..] == queue[1..] + [c] && (queue + [c])[0] == queue[0];
      SynthAppend(queue[1..], c);
      assert first + (SynthIds(queue[1..]) + last) == (first + SynthIds(queue[1..])) + last;
    }
  }

  /** A new id is above every id before it, and the range does not wrap around. */
  lemma AllocationRises(next: RequestId, requested: RequestId, taken: bool)
    requires next <= MAX_ID && requested <= MAX_ID
    ensures var a := Allocate(next, requested, taken);
      && (a.id != 0 ==> next != 0 && next <= a.id <= MAX_ID && (a.next == 0 || a.id < a.next <= MAX_ID))
      && (a.id == 0 ==> a.next == next)
  {
  }

  lemma DropMiddle(a: seq<RequestId>, b: seq<RequestId>, d: seq<RequestId>, next: RequestId)
    requires Increasing(a + b + d) && Below(a + b + d, next)
    ensures Increasing(a + d) && Below(a + d, next)
  {
    var all, kept := a + b + d, a + d;
    forall i | 0 <= i < |kept| ensures kept[i] == all[if i < |a| then i else i + |b|] {
    }
    forall i, j | 0 <= i < j < |kept| ensures kept[i] < kept[j] {
      assert all[if i < |a| then i else i + |b|] < all[if j < |a| then j else j + |b|];
    }
  }

  lemma IdsSubmit(limits: Limits, p: Pipe, requested: RequestId, taken: bool, bytes: nat)
    requires IdsOk(p) && requested <= MAX_ID
    ensures IdsOk(Submit(limits, p, requested, taken, bytes))
  {
    var a := Allocate(p.next, requested, taken);
    AllocationRises(p.next, requested, taken);
    if a.id != 0 && Fits(limits, p, bytes) {
      SynthAppend(p.queue, Command(a.id, true, bytes));
      assert Line(Submit(limits, p, requested, taken, bytes)) == Line(p) + [a.id];
    }
  }

  lemma IdsOffer(limits: Limits, p: Pipe, c: Command)
    requires IdsOk(p) && !c.synthesize
    ensures IdsOk(Offer(limits, p, c))
  {
    SynthAppend(p.queue, c);
    assert SynthIds(p.queue) + [] == SynthIds(p.queue);
  }

  lemma LineFront(p: Pipe)
    requires p.hand.None? && p.queue != []
    ensures var first := if p.queue[0].synthesize then [p.queue[0].id] else [];
      Line(p) == p.sent + first + SynthIds(p.queue[1..])
  {
    var first := if p.queue[0].synthesize then [p.queue[0].id] else [];
    assert p.sent + [] == p.sent;
    assert p.sent + (first + SynthIds(p.queue[1..])) == p.sent + first + SynthIds(p.queue[1..]);
  }

  lemma IdsTake(p: Pipe, session: bool)
    requires IdsOk(p) && p.hand.None? && p.queue != []
    ensures IdsOk(Take(p, session))
  {
    var first := if p.queue[0].synthesize then [p.queue[0].id] else [];
    var rest := SynthIds(p.queue[1..]);
    LineFront(p);
    DropMiddle(p.sent, first, rest, p.next);
    if session {
      assert Line(Take(p, session)) == p.sent + first + rest;
    } else {
      assert p.sent + [] == p.sent;
      assert Line(Take(p, session)) == p.sent + rest;
    }
  }

  lemma IdsSend(p: Pipe, ok: bool)
    requires IdsOk(p) && p.hand.Some?
    ensures IdsOk(Send(p, ok))
  {
    DropMiddle(p.sent, HandIds(p.hand), SynthIds(p.queue), p.next);
    assert Line(Send(p, ok)) == if ok then Line(p) else p.sent + SynthIds(p.queue);
  }

  lemma IdsClear(p: Pipe)
    requires IdsOk(p)
    ensures IdsOk(Cleared(p))
  {
    DropMiddle(p.sent + HandIds(p.hand), SynthIds(p.queue), [], p.next);
    assert (p.sent + HandIds(p.hand)) + SynthIds(p.queue) + [] == Line(p);
    assert Line(Cleared(p)) == (p.sent + HandIds(p.hand)) + [];
  }

  // ----- bytes -----

  function Bytes(queue: seq<Command>): nat {
    if queue == [] then 0 else queue[0].bytes + Bytes(queue[1..])
  }

  /** The count is exact, so the saturating subtraction never saturates; both limits hold. */
  predicate BytesOk(limits: Limits, p: Pipe) {
    p.queuedBytes == Bytes(p.queue) <= limits.bytes && |p.queue| <= limits.commands
  }

  lemma {:induction false} BytesAppend(queue: seq<Command>, c: Command)
    ensures Bytes(queue + [c]) == Bytes(queue) + c.bytes
  {
    if queue == [] {
      assert (queue + [c])[1..] == [];
    } else {
      assert (queue + [c])[1..] == queue[1..] + [c];
      BytesAppend(queue[1..], c);
    }
  }

  lemma BytesOffer(limits: Limits, p: Pipe, c: Command)
    requires BytesOk(limits, p)
    ensures BytesOk(limits, Offer(limits, p, c))
  {
    BytesAppend(p.queue, c);
  }

  // ----- the object -----

  class OutboundQueue {
    const limits: Limits
    var nextRequestId: RequestId
    var queue: seq<Command>
    var queuedBytes: nat

    /** The fields are those of the pipe p, whose ids are in order and whose bytes are exact. */
    ghost predicate Holds(p: Pipe)
      reads this
    {
      p.next == nextRequestId && p.queue == queue && p.queuedBytes == queuedBytes && IdsOk(p) && BytesOk(limits, p)
    }

    constructor (l: Limits)
      ensures limits == l && Holds(FRESH)
    {
      limits, nextRequestId, queue, queuedBytes := l, 1, [], 0;
    }

    method AllocateRequestId(requested: RequestId, active: set<RequestId>) returns (id: RequestId)
      modifies this`nextRequestId
      ensures var a := Allocate(old(nextRequestId), requested, requested in active);
        id == a.id && nextRequestId == a.next
    {
      if nextRequestId == 0 {
        return 0;
      }
      if requested != 0 {
        if requested < nextRequestId || requested in active {
          return 0;
        }
        nextRequestId := if requested == MAX_ID then 0 else requested + 1;
        return requested;
      }
      id := nextRequestId;
      nextRequestId := if id == MAX_ID then 0 else id + 1;
    }

    /** A synthesize command: allocation and enqueue in one lock region. */
    method SubmitRequest(ghost p: Pipe, requested: RequestId, active: set<RequestId>, bytes: nat) returns (id: RequestId)
      requires Holds(p) && requested <= MAX_ID
      modifies this
      ensures Holds(Submit(limits, p, requested, requested in active, bytes))
      ensures id == SubmittedId(limits, p, requested, requested in active, bytes)
    {
      IdsSubmit(limits, p, requested, requested in active, bytes);
      id := AllocateRequestId(requested, active);
      if id != 0 {
        BytesOffer(limits, p, Command(id, true, bytes));
        var ok := Append(Command(id, true, bytes));
        id := if ok then id else 0;
      }
    }

    method Append(c: Command) returns (ok: bool)
      modifies this`queue, this`queuedBytes
      ensures ok == (|old(queue)| < limits.commands && c.bytes <= limits.bytes && old(queuedBytes) <= limits.bytes - c.bytes)
      ensures queue == old(queue) + (if ok then [c] else [])
      ensures queuedBytes == old(queuedBytes) + (if ok then c.bytes else 0)
    {
      if |queue| >= limits.commands {
        return false;
      }
      if c.bytes > limits.bytes || queuedBytes > limits.bytes - c.bytes {
        return false;
      }
      queuedBytes := queuedBytes + c.bytes;
      queue := queue + [c];
      return true;
    }

    method Enqueue(ghost p: Pipe, c: Command) returns (ok: bool)
      requires Holds(p) && !c.synthesize
      modifies this`queue, this`queuedBytes
      ensures ok == Fits(limits, p, c.bytes) && Holds(Offer(limits, p, c))
    {
      IdsOffer(limits, p, c);
      BytesOffer(limits, p, c);
      ok := Append(c);
    }

    method TakeFront(ghost p: Pipe, ghost session: bool) returns (c: Command)
      requires queue != [] && Holds(p) && p.hand.None?
      modifies this`queue, this`queuedBytes
      ensures c == old(queue[0]) && Holds(Take(p, session))
    {
      IdsTake(p, session);
      c := queue[0];
      queuedBytes := queuedBytes - (if queuedBytes < c.bytes then queuedBytes else c.bytes);
      queue := queue[1..];
    }

    method Clear(ghost p: Pipe)
      requires Holds(p)
      modifies this`queue, this`queuedBytes
      ensures Holds(Cleared(p))
    {
      IdsClear(p);
      queue, queuedBytes := [], 0;
    }
  }
}
