/** The playback queue over the mock sink: chunks wait until enough are buffered, are then
    submitted in order, and are reaped once their playing time is over. The clock is a
    parameter of every operation. */
module Player {
  import opened Basics
  import opened Bits
  import opened Pcm
  import PlayoutCursor

  const TWO64 := 0x1_0000_0000_0000_0000
  const TICKS_PER_SECOND := 1_000_000_000

  datatype Stage = Prepare | Write | Unprepare | ResetDevice | Close
  /** One failure may be injected at a stage, once enough buffers were submitted. */
  datatype Config = Config(prebuffer: nat, failAfter: Option<nat>, failStage: Stage)

  datatype Buffer = Buffer(chunk: Chunk, frames: nat, duration: nat, start: nat, begins: nat, completion: nat)

  /** `reaped` and `accepted` are history: the buffers played and the chunks taken in since
      the current epoch began. */
  datatype Sink = Sink(
    epoch: nat, buffers: seq<Buffer>, pending: seq<Buffer>, pendingFormat: Option<Format>, format: Format,
    started: bool, next: nat, submissions: nat, injected: bool, unhealthy: bool, late: nat,
    reaped: seq<Buffer>, accepted: seq<Chunk>)

  const INITIAL := Sink(1, [], [], None, Format("s16le", 24000, 1), false, 0, 0, false, false, 0, [], [])

  datatype Status = Done | Late | Waiting | Refused | Failed
  datatype Outcome = Outcome(sink: Sink, status: Status)

  // ----- the operations -----

  predicate Injects(cfg: Config, s: Sink, stage: Stage) {
    cfg.failAfter.Some? && !s.injected && cfg.failStage == stage && s.submissions >= cfg.failAfter.value
  }

  function Ticks(f: Format, frames: nat): nat
    requires f.rate > 0
  {
    Division(frames * TICKS_PER_SECOND, f.rate);
    (frames * TICKS_PER_SECOND) / f.rate
  }

  function Queued(c: Chunk): Buffer
    requires c.format.rate > 0 && c.format.channels > 0
  {
    var frames := Frames(c.bytes, c.format.channels);
    Buffer(c, frames, Ticks(c.format, frames), 0, 0, 0)
  }

  /** Reaps from position i on: a buffer whose time has not come is passed over. */
  function ReapFrom(cfg: Config, s: Sink, now: nat, i: nat): Outcome
    decreases |s.buffers| - i
  {
    if i >= |s.buffers| then Outcome(s, Done)
    else if s.buffers[i].completion > now then ReapFrom(cfg, s, now, i + 1)
    else if Injects(cfg, s, Unprepare) then Outcome(s.(injected := true, unhealthy := true), Failed)
    else ReapFrom(cfg, s.(buffers := s.buffers[..i] + s.buffers[i + 1..], reaped := s.reaped + [s.buffers[i]]), now, i)
  }

  function Reap(cfg: Config, s: Sink, now: nat): Outcome { ReapFrom(cfg, s, now, 0) }

  /** Submits the first pending buffer. */
  function SubmitOne(s: Sink, begins: nat): Sink
    requires s.pending != []
  {
    var b := s.pending[0];
    var placed := b.(start := s.next, begins := begins, completion := begins + b.duration);
    s.(pending := s.pending[1..], buffers := s.buffers + [placed], next := Wrap(s.next + b.frames),
       submissions := s.submissions + 1, started := true)
  }

  /** Submits pending buffers in order; a failure leaves the buffer it hit in front. */
  function Submit(cfg: Config, s: Sink, begins: nat): Outcome
    decreases |s.pending|
  {
    if s.pending == [] then Outcome(s.(pendingFormat := None), Done)
    else if Injects(cfg, s, Prepare) || Injects(cfg, s, Write) then Outcome(s.(injected := true), Failed)
    else Submit(cfg, SubmitOne(s, begins), begins + s.pending[0].duration)
  }

  function Later(a: nat, b: nat): nat { if a < b then b else a }

  function StartOfNext(s: Sink, now: nat): nat {
    if s.buffers == [] then now else Later(now, s.buffers[|s.buffers| - 1].completion)
  }

  function Flush(cfg: Config, s: Sink, now: nat): Outcome {
    if s.pending == [] then Outcome(s, Done)
    else if s.pendingFormat.None? then Outcome(s, Failed)
    else Submit(cfg, s.(format := s.pendingFormat.value), StartOfNext(s, now))
  }

  predicate PlayableFormat(f: Format) { f.encoding == "s16le" && f.rate != 0 && 0 < f.channels <= 65535 }

  predicate FormatFits(s: Sink, f: Format) {
    if s.started then s.format == f else s.pendingFormat.Some? ==> s.pendingFormat.value == f
  }

  /** Takes one chunk in, once there is room. */
  function Admit(cfg: Config, s: Sink, c: Chunk, now: nat): Outcome
    requires c.format.rate > 0 && c.format.channels > 0
  {
    if !FormatFits(s, c.format) then Outcome(s, Refused)
    else
      var named := s.(pendingFormat := Some(c.format));
      if |c.bytes| % (2 * c.format.channels) != 0 then Outcome(named, Refused)
      else
        var queued := named.(pending := s.pending + [Queued(c)],
                             accepted := s.accepted + [c]);
        if s.started || |queued.pending| >= cfg.prebuffer then Flush(cfg, queued, now) else Outcome(queued, Done)
  }

  /** One pass of the admission loop. `full` and `stillFull` say whether too much audio is
      queued before and after reaping; a `retry` comes back from waiting and does not look at
      the health flag again. */
  function Enqueue(cfg: Config, s: Sink, epoch: nat, c: Chunk, now: nat, full: bool, stillFull: bool, retry: bool): Outcome {
    if !PlayableFormat(c.format) then Outcome(s, Refused)
    else if c.bytes == [] then Outcome(s, Done)
    else if !retry && s.unhealthy then Outcome(s, Refused)
    else if epoch != s.epoch then Outcome(s.(late := s.late + 1), Late)
    else
      var r := Reap(cfg, s, now);
      if r.status == Failed then r
      else if s.started && full && stillFull then Outcome(r.sink, Waiting)
      else Admit(cfg, r.sink, c, now)
  }

  /** Epochs are 64-bit and skip zero. */
  function NextEpoch(e: nat): nat { if (e + 1) % TWO64 == 0 then 1 else (e + 1) % TWO64 }

  /** The epoch moves first; an unhealthy player or an injected failure then stops the reset. */
  function Reset(cfg: Config, s: Sink): Outcome {
    var moved := s.(epoch := NextEpoch(s.epoch), accepted := []);
    if s.unhealthy then Outcome(moved, Failed)
    else
      var zeroed := moved.(submissions := 0);
      if Injects(cfg, zeroed, ResetDevice) then Outcome(zeroed.(injected := true, unhealthy := true), Failed)
      else Outcome(zeroed.(buffers := [], pending := [], pendingFormat := None, started := false, next := 0, reaped := []), Done)
  }

  /** The mock cursor: inside the first buffer that is not over yet, else at the head. */
  function CursorIn(s: Sink, buffers: seq<Buffer>, now: nat): nat {
    if buffers == [] then s.next
    else
      var b := buffers[0];
      if b.completion <= now then CursorIn(s, buffers[1..], now)
      else if now <= b.begins then b.start
      else
        var elapsed := (now - b.begins) * s.format.rate / TICKS_PER_SECOND;
        if elapsed < b.frames then b.start + elapsed else b.start + b.frames
  }

  /** What is handed to the cursor fade. */
  function Snapshot(s: Sink): seq<PlayoutCursor.PlayoutBuffer> {
    seq(|s.buffers|, i requires 0 <= i < |s.buffers| =>
      PlayoutCursor.PlayoutBuffer(Chunk(s.buffers[i].chunk.request, s.format, s.buffers[i].chunk.bytes, 0, 0), s.buffers[i].start))
  }

  // ----- runs -----

  datatype Label =
    | EnqueueChunk(epoch: nat, c: Chunk, now: nat, full: bool, stillFull: bool, retry: bool)
    | ReapFinished(now: nat)
    | FlushPending(now: nat)
    | ResetPlayer
    | ResetIfEpoch(expected: nat)
    | Interrupt(now: nat, fadeMs: nat)

  /** Whether the fade is cut from submitted audio. */
  predicate Fades(s: Sink, fadeMs: nat) { fadeMs != 0 && s.started && s.buffers != [] }

  /** Reaps, cuts the faded tail and resets; a refused snapshot would stop before the reset. */
  function Interrupted(cfg: Config, s: Sink, now: nat, fadeMs: nat): Outcome {
    var r := Reap(cfg, s, now);
    if r.status == Failed then r
    else if Fades(r.sink, fadeMs) && !PlayoutCursor.Acceptable(Snapshot(r.sink)) then Outcome(r.sink, Failed)
    else Reset(cfg, r.sink)
  }

  function Step(cfg: Config, s: Sink, l: Label): Sink {
    match l
    case EnqueueChunk(epoch, c, now, full, stillFull, retry) => Enqueue(cfg, s, epoch, c, now, full, stillFull, retry).sink
    case ReapFinished(now) => Reap(cfg, s, now).sink
    case FlushPending(now) => if s.unhealthy then s else Flush(cfg, s, now).sink
    case ResetPlayer => Reset(cfg, s).sink
    case ResetIfEpoch(expected) => if s.epoch != expected then s else Reset(cfg, s).sink
    case Interrupt(now, fadeMs) => Interrupted(cfg, s, now, fadeMs).sink
  }

  // ----- invariants of a healthy player -----

  function Chunks(bs: seq<Buffer>): seq<Chunk> {
    seq(|bs|, i requires 0 <= i < |bs| => bs[i].chunk)
  }

  /** The number of frames before buffer i. */
  function Before(bs: seq<Buffer>, i: nat): nat
    requires i <= |bs|
  {
    if i == 0 then 0 else Before(bs, i - 1) + bs[i - 1].frames
  }

  function Total(bs: seq<Buffer>): nat { Before(bs, |bs|) }

  /** The 64-bit stream position. */
  function Wrap(n: nat): nat { n % TWO64 }

  /** Played, submitted and pending buffers are the accepted chunks, in order. */
  ghost predicate Conserved(s: Sink) { Chunks(s.reaped + s.buffers + s.pending) == s.accepted }

  /** Buffer i of the stream starts where the ones before it end. */
  ghost predicate Placed(s: Sink) {
    s.next == Wrap(Total(s.reaped + s.buffers)) && InPlace(s.reaped + s.buffers)
  }

  ghost predicate InPlace(bs: seq<Buffer>) { forall i :: 0 <= i < |bs| ==> StartsRight(bs, i) }

  predicate StartsRight(bs: seq<Buffer>, i: nat)
    requires i < |bs|
  {
    bs[i].start == Wrap(Before(bs, i))
  }

  predicate Sorted(bs: seq<Buffer>) {
    forall i, j :: 0 <= i < j < |bs| ==> bs[i].completion <= bs[j].completion
  }

  predicate OfFormat(bs: seq<Buffer>, f: Format) {
    forall i :: 0 <= i < |bs| ==> Carries(bs[i], f)
  }

  /** The buffer holds whole frames of the format, and knows how many. */
  predicate Carries(b: Buffer, f: Format) {
    b.chunk.format == f && PlayableFormat(f) && |b.chunk.bytes| % (2 * f.channels) == 0 &&
    b.frames == Frames(b.chunk.bytes, f.channels)
  }

  ghost predicate Formatted(s: Sink) {
    && OfFormat(s.buffers, s.format)
    && (s.pending != [] ==> s.pendingFormat.Some?)
    && (s.pendingFormat.Some? ==> PlayableFormat(s.pendingFormat.value) && OfFormat(s.pending, s.pendingFormat.value))
    && (s.started ==> PlayableFormat(s.format) && (s.pendingFormat.Some? ==> s.pendingFormat.value == s.format))
    && (!s.started ==> s.buffers == [])
  }

  /** Whatever waits has a format, also in a player that has become unhealthy. */
  predicate FormatKnown(s: Sink) { s.pending != [] ==> s.pendingFormat.Some? }

  ghost predicate Inv(s: Sink) {
    FormatKnown(s) && (s.unhealthy || (Conserved(s) && Placed(s) && Sorted(s.buffers) && Formatted(s)))
  }

  // ----- reaping -----

  lemma {:induction false} ReapNothing(cfg: Config, s: Sink, now: nat, i: nat)
    requires forall k :: i <= k < |s.buffers| ==> s.buffers[k].completion > now
    ensures ReapFrom(cfg, s, now, i) == Outcome(s, Done)
    decreases |s.buffers| - i
  {
    if i < |s.buffers| {
      ReapNothing(cfg, s, now, i + 1);
    }
  }

  /** Only the split between played and submitted moves, and only at the front. */
  ghost predicate OnlyReaped(s: Sink, t: Sink) {
    && t == s.(buffers := t.buffers, reaped := t.reaped)
    && s.reaped + s.buffers == t.reaped + t.buffers
    && |t.buffers| <= |s.buffers| && t.buffers == s.buffers[|s.buffers| - |t.buffers|..]
  }

  lemma OneMoreReaped(s: Sink, t: Sink, r: Sink)
    requires s.buffers != [] && t == s.(buffers := s.buffers[1..], reaped := s.reaped + [s.buffers[0]])
    requires OnlyReaped(t, r)
    ensures OnlyReaped(s, r)
  {
    assert s.reaped + s.buffers == t.reaped + t.buffers;
    var k := |t.buffers| - |r.buffers|;
    assert s.buffers[1..][k..] == s.buffers[k + 1..];
  }

  lemma {:induction false} ReapMoves(cfg: Config, s: Sink, now: nat)
    requires Sorted(s.buffers)
    ensures var r := Reap(cfg, s, now);
      if r.status == Failed then r.sink.unhealthy else r.status == Done && OnlyReaped(s, r.sink)
    decreases |s.buffers|
  {
    if s.buffers == [] {
    } else if s.buffers[0].completion > now {
      ReapNothing(cfg, s, now, 0);
      assert s.buffers[0..] == s.buffers;
    } else if !Injects(cfg, s, Unprepare) {
      var t := s.(buffers := s.buffers[1..], reaped := s.reaped + [s.buffers[0]]);
      assert s.buffers[..0] + s.buffers[1..] == s.buffers[1..];
      assert Reap(cfg, s, now) == Reap(cfg, t, now);
      ReapMoves(cfg, t, now);
      if Reap(cfg, t, now).status != Failed {
        OneMoreReaped(s, t, Reap(cfg, t, now).sink);
      }
    }
  }

  lemma ReapKeeps(cfg: Config, s: Sink, now: nat)
    requires Inv(s)
    ensures Inv(Reap(cfg, s, now).sink)
    ensures Reap(cfg, s, now).sink.epoch == s.epoch
    ensures s.unhealthy ==> Reap(cfg, s, now).sink.unhealthy
  {
    ReapFrame(cfg, s, now, 0);
    if !s.unhealthy {
      ReapMoves(cfg, s, now);
    }
  }

  lemma {:induction false} ReapFrame(cfg: Config, s: Sink, now: nat, i: nat)
    ensures var t := ReapFrom(cfg, s, now, i).sink;
      t.epoch == s.epoch && (s.unhealthy ==> t.unhealthy) && t.pending == s.pending && t.pendingFormat == s.pendingFormat
    decreases |s.buffers| - i
  {
    if i < |s.buffers| {
      if s.buffers[i].completion > now {
        ReapFrame(cfg, s, now, i + 1);
      } else if !Injects(cfg, s, Unprepare) {
        ReapFrame(cfg, s.(buffers := s.buffers[..i] + s.buffers[i + 1..], reaped := s.reaped + [s.buffers[i]]), now, i);
      }
    }
  }

  // ----- submitting -----

  lemma ChunksSame(a: seq<Buffer>, b: seq<Buffer>)
    requires |a| == |b| && forall i :: 0 <= i < |a| ==> a[i].chunk == b[i].chunk
    ensures Chunks(a) == Chunks(b)
  {
  }

  lemma WrapAdd(a: nat, b: nat)
    ensures Wrap(Wrap(a) + b) == Wrap(a + b)
  {
  }

  lemma {:induction false} BeforeSame(bs: seq<Buffer>, b: Buffer, i: nat)
    requires i <= |bs|
    ensures Before(bs + [b], i) == Before(bs, i)
  {
    if i > 0 {
      BeforeSame(bs, b, i - 1);
    }
  }

  lemma PlacedGrows(bs: seq<Buffer>, b: Buffer)
    requires InPlace(bs) && b.start == Wrap(Total(bs))
    ensures Total(bs + [b]) == Total(bs) + b.frames && InPlace(bs + [b])
  {
    BeforeSame(bs, b, |bs|);
    forall i | 0 <= i < |bs + [b]| ensures StartsRight(bs + [b], i) {
      BeforeSame(bs, b, i);
      assert i < |bs| ==> StartsRight(bs, i);
    }
  }

  /** Ready for submission at a time no earlier than the end of what is queued. */
  ghost predicate Submitting(s: Sink, begins: nat) {
    && Conserved(s) && Placed(s) && Sorted(s.buffers)
    && OfFormat(s.buffers, s.format) && OfFormat(s.pending, s.format) && PlayableFormat(s.format)
    && s.pendingFormat == Some(s.format)
    && (forall i :: 0 <= i < |s.buffers| ==> s.buffers[i].completion <= begins)
    && (!s.started ==> s.buffers == [])
  }

  lemma SubmitOneConserves(s: Sink, begins: nat)
    requires s.pending != [] && Conserved(s)
    ensures Conserved(SubmitOne(s, begins))
  {
    var t := SubmitOne(s, begins);
    ChunksSame(s.reaped + s.buffers + s.pending, t.reaped + t.buffers + t.pending);
  }

  lemma SubmitOnePlaces(s: Sink, begins: nat)
    requires s.pending != [] && Placed(s)
    ensures Placed(SubmitOne(s, begins))
  {
    var t := SubmitOne(s, begins);
    var placed := t.buffers[|s.buffers|];
    assert t.reaped + t.buffers == (s.reaped + s.buffers) + [placed];
    assert placed.start == s.next;
    PlacedGrows(s.reaped + s.buffers, placed);
    WrapAdd(Total(s.reaped + s.buffers), placed.frames);
  }

  lemma SubmitOneFormats(s: Sink, begins: nat)
    requires s.pending != []
    requires OfFormat(s.buffers, s.format) && OfFormat(s.pending, s.format)
    ensures OfFormat(SubmitOne(s, begins).buffers, s.format) && OfFormat(SubmitOne(s, begins).pending, s.format)
  {
    assert Carries(s.pending[0], s.format);
  }

  lemma SubmitOneKeeps(s: Sink, begins: nat)
    requires Submitting(s, begins) && s.pending != []
    ensures Submitting(SubmitOne(s, begins), begins + s.pending[0].duration)
  {
    SubmitOneConserves(s, begins);
    SubmitOnePlaces(s, begins);
    SubmitOneFormats(s, begins);
  }

  lemma {:induction false} SubmitKeeps(cfg: Config, s: Sink, begins: nat)
    requires Submitting(s, begins) && (s.pending == [] ==> s.started)
    ensures Inv(Submit(cfg, s, begins).sink) && Submit(cfg, s, begins).sink.epoch == s.epoch
    ensures Submit(cfg, s, begins).sink.unhealthy == s.unhealthy
    ensures Submit(cfg, s, begins).sink.accepted == s.accepted
    decreases |s.pending|
  {
    if s.pending != [] && !Injects(cfg, s, Prepare) && !Injects(cfg, s, Write) {
      SubmitOneKeeps(s, begins);
      SubmitKeeps(cfg, SubmitOne(s, begins), begins + s.pending[0].duration);
    }
  }

  lemma FlushKeeps(cfg: Config, s: Sink, now: nat)
    requires Inv(s) && !s.unhealthy
    ensures Inv(Flush(cfg, s, now).sink) && Flush(cfg, s, now).sink.epoch == s.epoch
    ensures !Flush(cfg, s, now).sink.unhealthy && Flush(cfg, s, now).sink.accepted == s.accepted
  {
    if s.pending != [] {
      var t := s.(format := s.pendingFormat.value);
      SubmitKeeps(cfg, t, StartOfNext(s, now));
    }
  }

  lemma {:induction false} SubmitFrame(cfg: Config, s: Sink, begins: nat)
    ensures var t := Submit(cfg, s, begins).sink;
      t.unhealthy == s.unhealthy && (FormatKnown(s) ==> FormatKnown(t))
    decreases |s.pending|
  {
    if s.pending != [] && !Injects(cfg, s, Prepare) && !Injects(cfg, s, Write) {
      SubmitFrame(cfg, SubmitOne(s, begins), begins + s.pending[0].duration);
    }
  }

  lemma AdmitKeeps(cfg: Config, s: Sink, c: Chunk, now: nat)
    requires Inv(s) && PlayableFormat(c.format)
    ensures Inv(Admit(cfg, s, c, now).sink)
  {
    if FormatFits(s, c.format) && |c.bytes| % (2 * c.format.channels) == 0 {
      var b := Queued(c);
      var queued := s.(pendingFormat := Some(c.format), pending := s.pending + [b], accepted := s.accepted + [c]);
      assert s.reaped + s.buffers + queued.pending == (s.reaped + s.buffers + s.pending) + [b];
      if s.unhealthy {
        if queued.pending != [] {
          SubmitFrame(cfg, queued.(format := c.format), StartOfNext(queued, now));
        }
      } else {
        FlushKeeps(cfg, queued, now);
      }
    }
  }

  // ----- every run -----

  lemma StepKeeps(cfg: Config, s: Sink, l: Label)
    requires Inv(s)
    ensures Inv(Step(cfg, s, l))
  {
    match l
    case EnqueueChunk(epoch, c, now, full, stillFull, retry) =>
      ReapKeeps(cfg, s, now);
      if PlayableFormat(c.format) {
        AdmitKeeps(cfg, Reap(cfg, s, now).sink, c, now);
      }
    case ReapFinished(now) => ReapKeeps(cfg, s, now);
    case FlushPending(now) =>
      if !s.unhealthy {
        FlushKeeps(cfg, s, now);
      }
    case ResetPlayer => ResetKeeps(cfg, s);
    case ResetIfEpoch(expected) => ResetKeeps(cfg, s);
    case Interrupt(now, fadeMs) =>
      ReapKeeps(cfg, s, now);
      ResetKeeps(cfg, Reap(cfg, s, now).sink);
  }

  lemma ResetKeeps(cfg: Config, s: Sink)
    requires Inv(s)
    ensures Inv(Reset(cfg, s).sink)
  {
  }

  function Run(cfg: Config, labels: seq<Label>): Sink {
    if labels == [] then INITIAL else Step(cfg, Run(cfg, labels[..|labels| - 1]), labels[|labels| - 1])
  }

  lemma {:induction false} RunInv(cfg: Config, labels: seq<Label>)
    ensures Inv(Run(cfg, labels))
  {
    if labels == [] {
      assert Chunks([]) == [];
    } else {
      RunInv(cfg, labels[..|labels| - 1]);
      StepKeeps(cfg, Run(cfg, labels[..|labels| - 1]), labels[|labels| - 1]);
    }
  }

  /** In every reachable healthy state, injected submission failures included: nothing
      accepted in the current epoch is lost, doubled or reordered, and the stream position
      is the number of frames submitted. In every reachable state at all, a flush that finds
      buffers finds their format. */
  lemma BuffersConserved(cfg: Config, labels: seq<Label>)
    ensures var s := Run(cfg, labels);
      && (s.pending != [] ==> s.pendingFormat.Some?)
      && (!s.unhealthy ==>
            Chunks(s.reaped + s.buffers + s.pending) == s.accepted && s.next == Wrap(Total(s.reaped + s.buffers)))
  {
    RunInv(cfg, labels);
  }

  /** A call for another epoch touches no buffer. */
  lemma StaleEpochChangesNothing(cfg: Config, labels: seq<Label>, l: Label)
    requires l.EnqueueChunk? || l.ResetIfEpoch?
    requires (if l.EnqueueChunk? then l.epoch else l.expected) != Run(cfg, labels).epoch
    ensures var s := Run(cfg, labels); var t := Step(cfg, s, l); t == s || t == s.(late := s.late + 1)
  {
  }

  lemma {:induction false} BeforeRises(bs: seq<Buffer>, i: nat, j: nat)
    requires i <= j <= |bs|
    ensures Before(bs, i) <= Before(bs, j)
    decreases j
  {
    if i < j {
      BeforeRises(bs, i, j - 1);
    }
  }

  /** The snapshot handed to the cursor fade is never refused, as long as fewer than 2^64
      frames were submitted in the epoch. */
  lemma SnapshotAcceptable(cfg: Config, labels: seq<Label>)
    requires var s := Run(cfg, labels); !s.unhealthy && s.buffers != [] && Total(s.reaped + s.buffers) < TWO64
    ensures PlayoutCursor.Acceptable(Snapshot(Run(cfg, labels)))
  {
    RunInv(cfg, labels);
    SnapshotOrdered(Run(cfg, labels));
  }

  /** The tail of an interruption: nothing when no fade is due or every frame has been played,
      refused when the snapshot breaks the rules, else the ramped window behind the cursor. */
  ghost predicate RightTail(s: Sink, now: nat, fadeMs: nat, tail: PlayoutCursor.Fade) {
    if !Fades(s, fadeMs) then tail == PlayoutCursor.Nothing
    else
      var shot, cursor := Snapshot(s), CursorIn(s, s.buffers, now);
      if !PlayoutCursor.Acceptable(shot) then tail == PlayoutCursor.Refused
      else if PlayoutCursor.AllPlayed(shot, cursor) then tail == PlayoutCursor.Nothing
      else
        && tail.Shaped? && Aligned(PlayoutCursor.Window(shot, cursor, fadeMs), s.format.channels)
        && tail.chunk == Chunk(PlayoutCursor.FirstRequest(shot, cursor), s.format,
                               Faded(PlayoutCursor.Window(shot, cursor, fadeMs), s.format.channels), 0, 0)
  }

  lemma NotRefused(cfg: Config, s: Sink, now: nat, fadeMs: nat)
    requires Inv(s)
    ensures var t := Reap(cfg, s, now).sink;
      !t.unhealthy && Total(t.reaped + t.buffers) < TWO64 && Fades(t, fadeMs) ==> PlayoutCursor.Acceptable(Snapshot(t))
  {
    ReapKeeps(cfg, s, now);
    var t := Reap(cfg, s, now).sink;
    if !t.unhealthy && Total(t.reaped + t.buffers) < TWO64 && Fades(t, fadeMs) {
      SnapshotOrdered(t);
    }
  }

  lemma SnapshotOrdered(s: Sink)
    requires Placed(s) && OfFormat(s.buffers, s.format) && Total(s.reaped + s.buffers) < TWO64 && s.buffers != []
    ensures PlayoutCursor.Acceptable(Snapshot(s))
  {
    var shot := Snapshot(s);
    SnapshotAt(s, 0);
    forall i | 0 <= i < |shot|
      ensures shot[i].chunk.format == s.format && |shot[i].chunk.bytes| % (2 * s.format.channels) == 0
      ensures PlayoutCursor.End(shot[i]) < TWO64
    {
      SnapshotAt(s, i);
    }
    forall i, j | 0 <= i < j < |shot| ensures PlayoutCursor.End(shot[i]) <= shot[j].start {
      SnapshotAt(s, i);
      SnapshotAt(s, j);
      BeforeRises(s.reaped + s.buffers, |s.reaped| + i + 1, |s.reaped| + j);
    }
  }

  /** Snapshot entry i holds whole frames and covers its place in the stream. */
  predicate Faithful(s: Sink, i: nat)
    requires i < |s.buffers|
  {
    var b := Snapshot(s)[i];
    && b.chunk.format == s.format && PlayableFormat(s.format) && |b.chunk.bytes| % (2 * s.format.channels) == 0
    && b.start == Before(s.reaped + s.buffers, |s.reaped| + i)
    && PlayoutCursor.End(b) == Before(s.reaped + s.buffers, |s.reaped| + i + 1) < TWO64
  }

  lemma StartsAt(all: seq<Buffer>, i: nat)
    requires i < |all| && InPlace(all) && Total(all) < TWO64
    ensures all[i].start == Before(all, i) && Before(all, i + 1) < TWO64
  {
    assert StartsRight(all, i);
    BeforeRises(all, i, |all|);
    BeforeRises(all, i + 1, |all|);
  }

  lemma SnapshotAt(s: Sink, i: nat)
    requires i < |s.buffers| && Placed(s) && OfFormat(s.buffers, s.format) && Total(s.reaped + s.buffers) < TWO64
    ensures Faithful(s, i)
  {
    assert Carries(s.buffers[i], s.format);
    assert (s.reaped + s.buffers)[|s.reaped| + i] == s.buffers[i];
    StartsAt(s.reaped + s.buffers, |s.reaped| + i);
  }

  // ----- the cursor -----

  /** While 64 bits suffice, the mock cursor stays within the submitted stream. */
  lemma {:induction false} CursorWithin(s: Sink, i: nat, now: nat)
    requires i <= |s.buffers| && Placed(s) && Total(s.reaped + s.buffers) < TWO64
    ensures Before(s.reaped + s.buffers, |s.reaped| + i) <= CursorIn(s, s.buffers[i..], now) <= s.next
    decreases |s.buffers| - i
  {
    var all, k := s.reaped + s.buffers, |s.reaped| + i;
    BeforeRises(all, k, |all|);
    if i < |s.buffers| {
      assert s.buffers[i..][1..] == s.buffers[i + 1..] && all[k] == s.buffers[i];
      StartsAt(all, k);
      BeforeRises(all, k + 1, |all|);
      CursorWithin(s, i + 1, now);
      if now >= s.buffers[i].begins {
        ElapsedNat(now, s.buffers[i].begins, s.format.rate);
      }
    }
  }

  lemma ElapsedNat(now: nat, begins: nat, rate: nat)
    requires now >= begins
    ensures (now - begins) * rate / TICKS_PER_SECOND >= 0
  {
    MulLe(now - begins, 0, rate);
  }

  // ----- the object -----

  class WaveOutPlayer {
    const cfg: Config
    var epoch: nat
    var buffers: seq<Buffer>
    var pending: seq<Buffer>
    var pendingFormat: Option<Format>
    var format: Format
    var started: bool
    var next: nat
    var submissions: nat
    var injected: bool
    var unhealthy: bool
    var late: nat
    ghost var reaped: seq<Buffer>
    ghost var accepted: seq<Chunk>

    ghost function View(): Sink
      reads this
    {
      Sink(epoch, buffers, pending, pendingFormat, format, started, next, submissions, injected, unhealthy, late, reaped, accepted)
    }

    constructor (c: Config)
      requires c.prebuffer > 0
      ensures cfg == c && View() == INITIAL
    {
      cfg := c;
      epoch, buffers, pending, pendingFormat, format := 1, [], [], None, Format("s16le", 24000, 1);
      started, next, submissions, injected, unhealthy, late := false, 0, 0, false, false, 0;
      reaped, accepted := [], [];
    }

    method ShouldInject(stage: Stage) returns (r: bool)
      modifies this`injected
      ensures r == Injects(cfg, old(View()), stage)
      ensures View() == if r then old(View()).(injected := true) else old(View())
    {
      r := cfg.failAfter.Some? && !injected && cfg.failStage == stage && submissions >= cfg.failAfter.value;
      if r {
        injected := true;
      }
    }

    method ReapFinished(now: nat) returns (ok: bool)
      modifies this
      ensures View() == Reap(cfg, old(View()), now).sink && ok == (Reap(cfg, old(View()), now).status != Failed)
      ensures Inv(old(View())) ==> Inv(View())
    {
      if Inv(View()) {
        ReapKeeps(cfg, View(), now);
      }
      var i := 0;
      while i < |buffers|
        invariant ReapFrom(cfg, View(), now, i) == Reap(cfg, old(View()), now)
        decreases |buffers| - i
      {
        if buffers[i].completion > now {
          i := i + 1;
        } else {
          var fails := ShouldInject(Unprepare);
          if fails {
            unhealthy := true;
            return false;
          }
          reaped := reaped + [buffers[i]];
          buffers := buffers[..i] + buffers[i + 1..];
        }
      }
      return true;
    }

    method FlushPending(now: nat) returns (ok: bool)
      modifies this
      ensures View() == Flush(cfg, old(View()), now).sink && ok == (Flush(cfg, old(View()), now).status == Done)
      ensures Inv(old(View())) && !old(unhealthy) ==> Inv(View())
    {
      if Inv(View()) && !unhealthy {
        FlushKeeps(cfg, View(), now);
      }
      ok := SubmitPending(now);
    }

    method SubmitPending(now: nat) returns (ok: bool)
      modifies this
      ensures View() == Flush(cfg, old(View()), now).sink && ok == (Flush(cfg, old(View()), now).status == Done)
    {
      if pending == [] {
        return true;
      }
      if pendingFormat.None? {
        return false;
      }
      var completion: nat := now;
      if buffers != [] && buffers[|buffers| - 1].completion > completion {
        completion := buffers[|buffers| - 1].completion;
      }
      format := pendingFormat.value;
      while pending != []
        invariant Submit(cfg, View(), completion) == Flush(cfg, old(View()), now)
        decreases |pending|
      {
        var fails := ShouldInject(Prepare);
        if fails {
          return false;
        }
        fails := ShouldInject(Write);
        if fails {
          return false;
        }
        completion := SubmitFront(completion);
      }
      pendingFormat := None;
      return true;
    }

    method SubmitFront(begins: nat) returns (completion: nat)
      requires pending != []
      modifies this`pending, this`buffers, this`next, this`submissions, this`started
      ensures View() == SubmitOne(old(View()), begins) && completion == begins + old(pending[0].duration)
    {
      var buffer := pending[0];
      pending := pending[1..];
      completion := begins + buffer.duration;
      buffer := buffer.(start := next, begins := begins, completion := completion);
      buffers := buffers + [buffer];
      next := Wrap(buffer.start + buffer.frames);
      submissions := submissions + 1;
      started := true;
    }

    /** One pass of the admission loop. */
    method EnqueueChunk(playbackEpoch: nat, c: Chunk, now: nat, full: bool, stillFull: bool, retry: bool)
      returns (status: Status)
      modifies this
      ensures Outcome(View(), status) == Enqueue(cfg, old(View()), playbackEpoch, c, now, full, stillFull, retry)
      ensures Inv(old(View())) ==> Inv(View())
    {
      if Inv(View()) {
        StepKeeps(cfg, View(), Label.EnqueueChunk(playbackEpoch, c, now, full, stillFull, retry));
      }
      if !PlayableFormat(c.format) {
        return Refused;
      }
      if c.bytes == [] {
        return Done;
      }
      if !retry && unhealthy {
        return Refused;
      }
      if playbackEpoch != epoch {
        late := late + 1;
        return Late;
      }
      var wasStarted := started;
      var reapedAll := ReapFinished(now);
      if !reapedAll {
        return Failed;
      }
      if wasStarted && full && stillFull {
        return Waiting;
      }
      status := AdmitChunk(c, now);
    }

    method AdmitChunk(c: Chunk, now: nat) returns (status: Status)
      requires PlayableFormat(c.format)
      modifies this
      ensures Outcome(View(), status) == Admit(cfg, old(View()), c, now)
      ensures Inv(old(View())) ==> Inv(View())
    {
      if Inv(View()) {
        AdmitKeeps(cfg, View(), c, now);
      }
      if started {
        if format != c.format {
          return Refused;
        }
      } else if pendingFormat.Some? && pendingFormat.value != c.format {
        return Refused;
      }
      pendingFormat := Some(c.format);
      if |c.bytes| % (2 * c.format.channels) != 0 {
        return Refused;
      }
      pending := pending + [Queued(c)];
      accepted := accepted + [c];
      if started || |pending| >= cfg.prebuffer {
        FlushStatus(cfg, View(), now);
        var ok := FlushPending(now);
        return if ok then Done else Failed;
      }
      return Done;
    }

    method MoveEpoch()
      modifies this`epoch, this`accepted
      ensures epoch == NextEpoch(old(epoch)) && accepted == []
    {
      epoch := (epoch + 1) % TWO64;
      if epoch == 0 {
        epoch := 1;
      }
      accepted := [];
    }

    method ResetLocked() returns (ok: bool)
      modifies this
      ensures View() == Reset(cfg, old(View())).sink && ok == (Reset(cfg, old(View())).status == Done)
      ensures Inv(old(View())) ==> Inv(View())
    {
      if Inv(View()) {
        ResetKeeps(cfg, View());
      }
      ok := ResetFields();
    }

    method ResetFields() returns (ok: bool)
      modifies this
      ensures View() == Reset(cfg, old(View())).sink && ok == (Reset(cfg, old(View())).status == Done)
    {
      MoveEpoch();
      if unhealthy {
        return false;
      }
      submissions := 0;
      var fails := ShouldInject(ResetDevice);
      if fails {
        unhealthy := true;
        return false;
      }
      buffers, pending, pendingFormat, started, next := [], [], None, false, 0;
      reaped := [];
      return true;
    }

    /** Replaces what is queued by a short faded tail: the reference's, on the snapshot after
        reaping. In a healthy player that kept its invariant, with fewer than 2^64 frames
        submitted since the reset, the snapshot is never refused. */
    method InterruptWithFade(now: nat, fadeMs: nat) returns (ok: bool, tail: PlayoutCursor.Fade)
      modifies this
      ensures View() == Interrupted(cfg, old(View()), now, fadeMs).sink
      ensures ok == (Interrupted(cfg, old(View()), now, fadeMs).status == Done)
      ensures Inv(old(View())) ==> Inv(View())
      ensures var r := Reap(cfg, old(View()), now);
        if r.status == Failed then !ok && tail == PlayoutCursor.Nothing else RightTail(r.sink, now, fadeMs, tail)
      ensures var r := Reap(cfg, old(View()), now);
        Inv(old(View())) && !r.sink.unhealthy && Total(r.sink.reaped + r.sink.buffers) < TWO64 ==> !tail.Refused?
    {
      if Inv(View()) {
        StepKeeps(cfg, View(), Interrupt(now, fadeMs));
        NotRefused(cfg, View(), now, fadeMs);
      }
      tail := PlayoutCursor.Nothing;
      var reapedAll := ReapFinished(now);
      ReapStatus(cfg, old(View()), now, 0);
      if !reapedAll {
        return false, tail;
      }
      ResetStatus(cfg, View());
      tail := InterruptionTail(now, fadeMs);
      if tail.Refused? {
        return false, tail;
      }
      ok := ResetLocked();
    }

    method InterruptionTail(now: nat, fadeMs: nat) returns (tail: PlayoutCursor.Fade)
      ensures RightTail(View(), now, fadeMs, tail)
    {
      if fadeMs == 0 || !started || buffers == [] {
        return PlayoutCursor.Nothing;
      }
      var snapshot := seq(|buffers|, i requires 0 <= i < |buffers| reads this =>
        PlayoutCursor.PlayoutBuffer(Chunk(buffers[i].chunk.request, format, buffers[i].chunk.bytes, 0, 0), buffers[i].start));
      assert snapshot == Snapshot(View());
      var cursor := CurrentCursor(now);
      tail := PlayoutCursor.MakePlayoutCursorFade(snapshot, cursor, fadeMs);
    }

    method CurrentCursor(now: nat) returns (cursor: nat)
      ensures cursor == CursorIn(View(), buffers, now)
    {
      var i := 0;
      assert buffers[0..] == buffers;
      while i < |buffers|
        invariant i <= |buffers| && CursorIn(View(), buffers, now) == CursorIn(View(), buffers[i..], now)
      {
        assert buffers[i..][1..] == buffers[i + 1..];
        var b := buffers[i];
        if b.completion > now {
          if now <= b.begins {
            return b.start;
          }
          ElapsedNat(now, b.begins, format.rate);
          var elapsed: nat := (now - b.begins) * format.rate / TICKS_PER_SECOND;
          return if elapsed < b.frames then b.start + elapsed else b.start + b.frames;
        }
        i := i + 1;
      }
      return next;
    }
  }

  lemma {:induction false} ReapStatus(cfg: Config, s: Sink, now: nat, i: nat)
    ensures ReapFrom(cfg, s, now, i).status in {Done, Failed}
    decreases |s.buffers| - i
  {
    if i < |s.buffers| {
      if s.buffers[i].completion > now {
        ReapStatus(cfg, s, now, i + 1);
      } else if !Injects(cfg, s, Unprepare) {
        ReapStatus(cfg, s.(buffers := s.buffers[..i] + s.buffers[i + 1..], reaped := s.reaped + [s.buffers[i]]), now, i);
      }
    }
  }

  lemma {:induction false} SubmitStatus(cfg: Config, s: Sink, begins: nat)
    ensures Submit(cfg, s, begins).status in {Done, Failed}
    decreases |s.pending|
  {
    if s.pending != [] && !Injects(cfg, s, Prepare) && !Injects(cfg, s, Write) {
      SubmitStatus(cfg, SubmitOne(s, begins), begins + s.pending[0].duration);
    }
  }

  lemma FlushStatus(cfg: Config, s: Sink, now: nat)
    ensures Flush(cfg, s, now).status in {Done, Failed}
  {
    if s.pending != [] && s.pendingFormat.Some? {
      SubmitStatus(cfg, s.(format := s.pendingFormat.value), StartOfNext(s, now));
    }
  }

  lemma ResetStatus(cfg: Config, s: Sink)
    ensures Reset(cfg, s).status in {Done, Failed}
  {
  }
}
