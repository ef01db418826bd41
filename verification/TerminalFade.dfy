/** The post-processor that holds back the last milliseconds of a stream so that it can
    fade them and append silence once it learns how the stream ended. */
module TerminalFade {
  import opened Basics
  import opened Bits
  import opened Pcm
  import PostProcessorChain

  const MAX_DURATION_MS := 600000
  const MAX64 := 0xFFFF_FFFF_FFFF_FFFF
  const TWO32 := 0x1_0000_0000
  const TWO64 := 0x1_0000_0000_0000_0000

  type Reason = PostProcessorChain.Reason

  /** Durations in milliseconds; the constructor refuses any above ten minutes. */
  datatype Options = Options(fade: nat, completionSilence: nat, cancellationSilence: nat)

  predicate Accepted(o: Options) {
    o.fade <= MAX_DURATION_MS && o.completionSilence <= MAX_DURATION_MS && o.cancellationSilence <= MAX_DURATION_MS
  }

  datatype State = State(
    format: Option<Format>, request: nat, frameBytes: nat, hold: nat,
    first: nat, count: nat, received: bool, finished: bool, pending: seq<Byte>)

  /** `out` is None when the call throws; what it changed before stays changed. */
  datatype Outcome = Outcome(state: State, out: Option<seq<Chunk>>)

  const INITIAL := State(None, 0, 0, 0, 0, 0, false, false, [])

  /** The sample clock is a 64-bit counter. */
  function Add64(a: nat, b: nat): nat { (a + b) % TWO64 }

  function DurationFrames(format: Format, ms: nat): nat { (format.rate * ms + 500) / 1000 }

  function DurationBytes(format: Format, frameBytes: nat, ms: nat): Option<nat> {
    if frameBytes != 0 && DurationFrames(format, ms) > MAX64 / frameBytes then None
    else Some(DurationFrames(format, ms) * frameBytes)
  }

  predicate ValidFormat(f: Format) { f.encoding == "s16le" && f.rate != 0 && f.channels != 0 }

  predicate ValidChunk(s: State, c: Chunk)
    requires s.format.Some? && s.frameBytes > 0
  {
    && c.format == s.format.value && c.request == s.request
    && |c.bytes| % s.frameBytes == 0
    && (c.sampleCount != 0 ==> c.sampleCount == |c.bytes| / s.frameBytes)
    && (s.received && c.sampleCount != 0 ==> c.firstSample == Add64(s.first, s.count))
  }

  /** The state a first chunk leaves, and whether configuring succeeded. */
  function Configured(o: Options, s: State, c: Chunk): State {
    var named := s.(format := Some(c.format), request := c.request, frameBytes := 2 * c.format.channels);
    var hold := DurationBytes(c.format, named.frameBytes, o.fade);
    if hold.Some? then named.(hold := hold.value) else named
  }

  /** A chunk added to the pending bytes. */
  function Held(s: State, c: Chunk): State
    requires s.frameBytes > 0
  {
    s.(received := true, first := if s.pending == [] then c.firstSample else s.first,
       count := s.count + (if c.sampleCount != 0 then c.sampleCount else |c.bytes| / s.frameBytes),
       pending := s.pending + c.bytes)
  }

  /** The 32-bit frame count of a chunk of this size. */
  function CountOf(s: State, size: nat): nat
    requires s.frameBytes > 0
  {
    size / s.frameBytes % TWO32
  }

  /** Emits all but the last `hold` bytes. */
  function Released(s: State): Outcome
    requires s.format.Some? && s.frameBytes > 0
  {
    if |s.pending| <= s.hold then Outcome(s, Some([]))
    else
      var emitted := |s.pending| - s.hold;
      var n := CountOf(s, emitted);
      Outcome(s.(first := Add64(s.first, n), count := if s.count < n then 0 else s.count - n, pending := s.pending[emitted..]),
              Some([Chunk(s.request, s.format.value, s.pending[..emitted], s.first, n)]))
  }

  function Buffer(s: State, c: Chunk): Outcome
    requires s.format.Some? && s.frameBytes > 0
  {
    if c.bytes == [] then Outcome(s, Some([])) else Released(Held(s, c))
  }

  function Process(o: Options, s: State, c: Chunk): Outcome
    requires s.format.Some? ==> s.frameBytes > 0
  {
    if s.finished then Outcome(s, Some([]))
    else if s.format.Some? then
      (if ValidChunk(s, c) then Buffer(s, c) else Outcome(s, None))
    else if !ValidFormat(c.format) then Outcome(s, None)
    else
      var t := Configured(o, s, c);
      if DurationBytes(c.format, t.frameBytes, o.fade).None? || !ValidChunk(t, c) then Outcome(t, None)
      else Buffer(t, c)
  }

  function SilenceMs(o: Options, reason: Reason): nat {
    match reason
    case Completed => o.completionSilence
    case Cancelled => o.cancellationSilence
    case Error => 0
  }

  function Zeros(n: nat): seq<Byte> { seq(n, i => 0) }

  predicate Sound(s: State) {
    && (s.format.Some? ==>
          && s.format.value.channels > 0 && s.frameBytes == 2 * s.format.value.channels
          && s.hold % s.frameBytes == 0 && |s.pending| % s.frameBytes == 0 && |s.pending| <= s.hold)
    && (s.format.None? ==> s.pending == [] && !s.received && s.hold == 0)
    && (!s.received ==> s.pending == [] && s.count == 0)
  }

  function Finish(o: Options, s: State, reason: Reason): Outcome
    requires Sound(s)
  {
    if s.finished then Outcome(s, Some([]))
    else if !s.received || s.format.None? then Outcome(s.(finished := true, pending := []), Some([]))
    else
      var shaped := if reason.Error? || o.fade == 0 then s.pending else Faded(s.pending, s.format.value.channels);
      var silence := DurationBytes(s.format.value, s.frameBytes, SilenceMs(o, reason));
      if silence.None? then Outcome(s.(finished := true, pending := shaped), None)
      else
        var bytes := shaped + Zeros(silence.value);
        var n: nat := |bytes| / s.frameBytes % TWO32;
        Outcome(s.(finished := true, pending := []),
                Some(if bytes == [] then [] else [Chunk(s.request, s.format.value, bytes, s.first, n)]))
  }

  // ----- whole streams -----

  function Flat(chunks: seq<Chunk>): seq<Byte> {
    if chunks == [] then [] else chunks[0].bytes + Flat(chunks[1..])
  }

  datatype Fed = Fed(state: State, out: seq<Chunk>)

  /** Chunks in order until one throws. */
  function Feed(o: Options, s: State, chunks: seq<Chunk>): Option<Fed>
    requires Sound(s)
    decreases |chunks|
  {
    if chunks == [] then Some(Fed(s, []))
    else
      var r := Process(o, s, chunks[0]);
      ProcessSound(o, s, chunks[0]);
      if r.out.None? then None
      else
        var rest := Feed(o, r.state, chunks[1..]);
        if rest.None? then None else Some(Fed(rest.value.state, r.out.value + rest.value.out))
  }

  /** A whole stream: all its chunks, then its end. */
  function Stream(o: Options, chunks: seq<Chunk>, reason: Reason): Option<seq<Chunk>> {
    var fed := Feed(o, INITIAL, chunks);
    if fed.None? then None
    else
      FeedSound(o, INITIAL, chunks);
      var last := Finish(o, fed.value.state, reason);
      if last.out.None? then None else Some(fed.value.out + last.out.value)
  }

  function Min(a: nat, b: nat): nat { if a < b then a else b }

  /** What a stream of these bytes should come out as: only its last `hold` bytes faded,
      then silence; nothing changed after an error. */
  function Expected(o: Options, format: Format, input: seq<Byte>, reason: Reason): seq<Byte>
    requires Aligned(input, format.channels)
  {
    var kept: nat := |input| - Min(DurationFrames(format, o.fade) * (2 * format.channels), |input|);
    KeptAligned(|input|, DurationFrames(format, o.fade), 2 * format.channels);
    if input == [] || reason.Error? then input
    else input[..kept] + Faded(input[kept..], format.channels)
         + Zeros(DurationFrames(format, SilenceMs(o, reason)) * (2 * format.channels))
  }

  // ----- alignment arithmetic -----

  lemma Multiples(x: nat, y: nat, p: nat)
    requires p > 0 && x % p == 0 && y % p == 0
    ensures (x + y) % p == 0 && (x + y) / p == x / p + y / p
    ensures x >= y ==> (x - y) % p == 0 && (x - y) / p == x / p - y / p
  {
    Division(x, p);
    Division(y, p);
    MulAdd(p, x / p, y / p);
    DivMod(p, x / p + y / p, 0);
    if x >= y {
      MulSub(p, x / p, y / p);
      if x / p < y / p {
        MulLe(p, x / p + 1, y / p);
        MulAdd(p, x / p, 1);
      }
      DivMod(p, x / p - y / p, 0);
    }
  }

  lemma Multiple(n: nat, p: nat)
    requires p > 0
    ensures n * p >= 0 && (n * p) % p == 0 && (n * p) / p == n
  {
    DivMod(p, n, 0);
  }

  lemma KeptAligned(length: nat, frames: nat, p: nat)
    requires p > 0 && length % p == 0
    ensures frames * p >= 0
    ensures (length - Min(frames * p, length)) % p == 0 && Min(frames * p, length) % p == 0
  {
    Multiple(frames, p);
    Multiples(length, Min(frames * p, length), p);
  }

  // ----- every call keeps the state sound -----

  lemma BufferSound(s: State, c: Chunk)
    requires Sound(s) && s.format.Some? && |c.bytes| % s.frameBytes == 0
    ensures Sound(Buffer(s, c).state)
  {
    Multiples(|s.pending|, |c.bytes|, s.frameBytes);
    if |s.pending| + |c.bytes| > s.hold {
      Multiples(|s.pending| + |c.bytes|, s.hold, s.frameBytes);
    }
  }

  lemma ConfiguredSound(o: Options, s: State, c: Chunk)
    requires Sound(s) && s.format.None? && ValidFormat(c.format)
    ensures Sound(Configured(o, s, c))
  {
    Multiple(DurationFrames(c.format, o.fade), 2 * c.format.channels);
    Multiple(0, 2 * c.format.channels);
  }

  lemma ProcessSound(o: Options, s: State, c: Chunk)
    requires Sound(s)
    ensures Sound(Process(o, s, c).state)
  {
    if !s.finished {
      if s.format.Some? {
        if ValidChunk(s, c) {
          BufferSound(s, c);
        }
      } else if ValidFormat(c.format) {
        ConfiguredSound(o, s, c);
        var t := Configured(o, s, c);
        if ValidChunk(t, c) {
          BufferSound(t, c);
        }
      }
    }
  }

  lemma {:induction false} FeedSound(o: Options, s: State, chunks: seq<Chunk>)
    requires Sound(s)
    ensures Feed(o, s, chunks).Some? ==> Sound(Feed(o, s, chunks).value.state)
    decreases |chunks|
  {
    if chunks != [] {
      ProcessSound(o, s, chunks[0]);
      FeedSound(o, Process(o, s, chunks[0]).state, chunks[1..]);
    }
  }

  // ----- bytes: no chunking matters -----

  lemma {:induction false} FlatConcat(a: seq<Chunk>, b: seq<Chunk>)
    ensures Flat(a + b) == Flat(a) + Flat(b)
  {
    if a == [] {
      assert a + b == b;
    } else {
      FlatConcat(a[1..], b);
      assert (a + b)[1..] == a[1..] + b;
      assert Flat(a + b) == a[0].bytes + (Flat(a[1..]) + Flat(b));
    }
  }

  predicate SameSetup(s: State, t: State) {
    t.format == s.format && t.hold == s.hold && t.finished == s.finished &&
    t.request == s.request && t.frameBytes == s.frameBytes
  }

  /** What came out and what is held are what came in; at most `hold` bytes are held. */
  predicate Moved(s: State, t: State, input: seq<Byte>, output: seq<Byte>) {
    && output + t.pending == s.pending + input
    && |t.pending| == Min(s.hold, |s.pending| + |input|)
    && SameSetup(s, t)
    && (t.received <==> s.received || input != [])
  }

  lemma MovedTwice(s: State, r: State, t: State, i: seq<Byte>, j: seq<Byte>, a: seq<Byte>, b: seq<Byte>)
    requires Moved(s, r, i, a) && Moved(r, t, j, b)
    ensures Moved(s, t, i + j, a + b)
  {
    assert (a + b) + t.pending == a + (b + t.pending);
    assert a + (r.pending + j) == (a + r.pending) + j;
    assert (s.pending + i) + j == s.pending + (i + j);
  }

  lemma FlatOne(x: Chunk)
    ensures Flat([x]) == x.bytes
  {
    assert [x][1..] == [] && x.bytes + [] == x.bytes;
  }

  lemma ReleasedMoves(s: State)
    requires s.format.Some? && s.frameBytes > 0
    ensures var r := Released(s);
      && r.out.Some? && Flat(r.out.value) + r.state.pending == s.pending
      && |r.state.pending| == Min(s.hold, |s.pending|) && SameSetup(s, r.state) && r.state.received == s.received
  {
    if |s.pending| > s.hold {
      var emitted := |s.pending| - s.hold;
      FlatOne(Released(s).out.value[0]);
      assert s.pending[..emitted] + s.pending[emitted..] == s.pending;
    }
  }

  lemma BufferBytes(s: State, c: Chunk)
    requires Sound(s) && s.format.Some? && |c.bytes| % s.frameBytes == 0
    ensures Buffer(s, c).out.Some? && Moved(s, Buffer(s, c).state, c.bytes, Flat(Buffer(s, c).out.value))
  {
    if c.bytes == [] {
      assert s.pending + c.bytes == s.pending && [] + s.pending == s.pending;
    } else {
      ReleasedMoves(Held(s, c));
    }
  }

  lemma {:induction false} FeedBytes(o: Options, s: State, chunks: seq<Chunk>)
    requires Sound(s) && s.format.Some? && !s.finished && Feed(o, s, chunks).Some?
    ensures var r := Feed(o, s, chunks).value; Sound(r.state) && Moved(s, r.state, Flat(chunks), Flat(r.out))
    ensures |Flat(chunks)| % s.frameBytes == 0
    decreases |chunks|
  {
    FeedSound(o, s, chunks);
    if chunks == [] {
      DivMod(s.frameBytes, 0, 0);
    } else {
      var c := chunks[0];
      var r := Process(o, s, c);
      ProcessSound(o, s, c);
      BufferBytes(s, c);
      FeedBytes(o, r.state, chunks[1..]);
      var rest := Feed(o, r.state, chunks[1..]).value;
      FlatConcat(r.out.value, rest.out);
      Multiples(|c.bytes|, |Flat(chunks[1..])|, s.frameBytes);
      MovedTwice(s, r.state, rest.state, c.bytes, Flat(chunks[1..]), Flat(r.out.value), Flat(rest.out));
    }
  }

  lemma FinishBytes(o: Options, s: State, input: seq<Byte>, emitted: seq<Byte>, reason: Reason)
    requires Sound(s) && s.format.Some? && !s.finished && Finish(o, s, reason).out.Some?
    requires emitted + s.pending == input && |s.pending| == Min(s.hold, |input|) && (s.received <==> input != [])
    requires s.hold == DurationFrames(s.format.value, o.fade) * s.frameBytes
    requires |input| % s.frameBytes == 0
    ensures emitted + Flat(Finish(o, s, reason).out.value) == Expected(o, s.format.value, input, reason)
  {
    var format, out := s.format.value, Finish(o, s, reason).out.value;
    var kept := |input| - |s.pending|;
    KeptAligned(|input|, DurationFrames(format, o.fade), s.frameBytes);
    assert input[..kept] == emitted && input[kept..] == s.pending;
    if out != [] {
      assert out[1..] == [] && Flat(out) == out[0].bytes + [];
    }
    if input != [] && !reason.Error? {
      if o.fade == 0 {
        assert s.pending == [];
        assert Faded(s.pending, format.channels) == [];
      }
      assert emitted + (Faded(s.pending, format.channels) + Zeros(DurationFrames(format, SilenceMs(o, reason)) * s.frameBytes))
        == (emitted + Faded(s.pending, format.channels)) + Zeros(DurationFrames(format, SilenceMs(o, reason)) * s.frameBytes);
    } else if input != [] {
      assert DurationFrames(format, 0) == 0;
      assert Zeros(0) == [] && s.pending + [] == s.pending;
    }
  }

  /** Terminal fade does not depend on chunking: whenever no call throws, the output of any
      split of a byte stream is the same function of the whole stream. */
  lemma StreamBytes(o: Options, chunks: seq<Chunk>, reason: Reason)
    requires chunks != [] && Stream(o, chunks, reason).Some?
    ensures Aligned(Flat(chunks), chunks[0].format.channels)
    ensures Flat(Stream(o, chunks, reason).value) == Expected(o, chunks[0].format, Flat(chunks), reason)
  {
    var c := chunks[0];
    var t := Configured(o, INITIAL, c);
    FeedSound(o, INITIAL, chunks);
    ConfiguredSound(o, INITIAL, c);
    FirstConfigures(o, chunks);
    FeedBytes(o, t, chunks);
    var fed := Feed(o, INITIAL, chunks).value;
    FlatConcat(fed.out, Finish(o, fed.state, reason).out.value);
    assert [] + Flat(chunks) == Flat(chunks);
    FinishBytes(o, fed.state, Flat(chunks), Flat(fed.out), reason);
  }

  /** Once the first chunk is accepted, the stream runs as from the configured state. */
  lemma FirstConfigures(o: Options, chunks: seq<Chunk>)
    requires chunks != [] && Feed(o, INITIAL, chunks).Some?
    ensures ValidFormat(chunks[0].format) && Sound(Configured(o, INITIAL, chunks[0]))
    ensures DurationBytes(chunks[0].format, 2 * chunks[0].format.channels, o.fade).Some?
    ensures Feed(o, INITIAL, chunks) == Feed(o, Configured(o, INITIAL, chunks[0]), chunks)
  {
    ConfiguredSound(o, INITIAL, chunks[0]);
  }

  // ----- the sample clock -----

  /** The chunk continues the stream at position `at` with its frame count set. */
  predicate Continues(c: Chunk, format: Format, request: nat, at: nat)
    requires format.channels > 0
  {
    && c.format == format && c.request == request && Aligned(c.bytes, format.channels)
    && c.sampleCount == Frames(c.bytes, format.channels) < TWO32
    && (c.bytes != [] ==> c.firstSample == at)
  }

  predicate Contiguous(chunks: seq<Chunk>, format: Format, request: nat, at: nat)
    requires format.channels > 0
    decreases |chunks|
  {
    chunks == [] ||
    (Continues(chunks[0], format, request, at) &&
     Contiguous(chunks[1..], format, request, Add64(at, chunks[0].sampleCount)))
  }

  /** Where a consumer of the counts finds the end. */
  function EndOf(chunks: seq<Chunk>, at: nat): nat
    decreases |chunks|
  {
    if chunks == [] then at else EndOf(chunks[1..], Add64(at, chunks[0].sampleCount))
  }

  /** One timeline without gaps or overlaps on the chunks' own counts: non-empty chunks of whole
      frames, each counted exactly and starting where the one before it ends. */
  predicate GapFree(chunks: seq<Chunk>, format: Format, request: nat, at: nat)
    requires format.channels > 0
    decreases |chunks|
  {
    chunks == [] ||
    (chunks[0].bytes != [] && Aligned(chunks[0].bytes, format.channels) && chunks[0].firstSample == at &&
     chunks[0].format == format && chunks[0].request == request &&
     chunks[0].sampleCount == Frames(chunks[0].bytes, format.channels) &&
     GapFree(chunks[1..], format, request, Add64(at, chunks[0].sampleCount)))
  }

  /** The held bytes end at position `at`. */
  predicate Tracks(s: State, at: nat)
    requires Sound(s) && s.format.Some?
  {
    && (s.received ==> Add64(s.first, s.count) == at && s.first < TWO64)
    && s.count == Frames(s.pending, s.format.value.channels)
  }

  function StartOf(s: State, at: nat): nat { if s.received then s.first else at }

  lemma Add64Assoc(a: nat, b: nat, c: nat)
    ensures Add64(Add64(a, b), c) == Add64(a, b + c)
  {
  }

  /** The fields a chunk moves, when the buffer stays within its hold and when it does not. */
  lemma HeldFields(s: State, c: Chunk, at: nat)
    requires Sound(s) && s.format.Some? && Tracks(s, at)
    requires Continues(c, s.format.value, s.request, at) && c.bytes != [] && |s.pending| + |c.bytes| <= s.hold
    ensures Buffer(s, c) ==
      Outcome(s.(received := true, first := StartOf(s, at), count := s.count + c.sampleCount,
                 pending := s.pending + c.bytes), Some([]))
  {
    StartKept(s, at);
  }

  lemma StartKept(s: State, at: nat)
    requires Sound(s) && s.format.Some? && Tracks(s, at)
    ensures s.pending == [] ==> s.count == 0 && (s.received ==> s.first == at)
  {
    DivMod(s.frameBytes, 0, 0);
  }

  lemma ClockAfter(s: State, at: nat, n: nat)
    requires Sound(s) && s.format.Some? && Tracks(s, at) && at < TWO64
    ensures Add64(StartOf(s, at), s.count + n) == Add64(at, n)
  {
    StartKept(s, at);
    Add64Assoc(StartOf(s, at), s.count, n);
  }

  lemma HeldTracks(s: State, c: Chunk, at: nat)
    requires Sound(s) && s.format.Some? && Tracks(s, at) && at < TWO64
    requires Continues(c, s.format.value, s.request, at) && c.bytes != [] && |s.pending| + |c.bytes| <= s.hold
    ensures var r := Buffer(s, c); var next := Add64(at, c.sampleCount);
      && r.out == Some([]) && Sound(r.state) && r.state.format.Some?
      && Tracks(r.state, next) && StartOf(r.state, next) == StartOf(s, at)
  {
    BufferSound(s, c);
    HeldFields(s, c, at);
    ClockAfter(s, at, c.sampleCount);
    Multiples(|s.pending|, |c.bytes|, s.frameBytes);
  }

  /** The frames emitted and the frames kept, when the buffer overflows its hold. */
  lemma Emission(held: nat, added: nat, hold: nat, p: nat)
    requires p > 0 && held % p == 0 && added % p == 0 && hold % p == 0 && held <= hold < held + added
    ensures var emitted := held + added - hold;
      && emitted % p == 0 && emitted / p + hold / p == held / p + added / p
      && 0 <= emitted / p <= added / p && 0 <= held / p <= hold / p
  {
    Multiples(held, added, p);
    Multiples(held + added, hold, p);
    Multiples(hold, held, p);
    Division(held + added - hold, p);
    Division(hold - held, p);
    Division(held, p);
  }

  lemma EmitFields(s: State, c: Chunk, start: nat, n: nat)
    requires s.format.Some? && s.frameBytes > 0 && c.bytes != [] && |s.pending| + |c.bytes| > s.hold
    requires start == (if s.pending == [] then c.firstSample else s.first) && 0 < c.sampleCount < TWO32
    requires n == (|s.pending| + |c.bytes| - s.hold) / s.frameBytes <= c.sampleCount
    ensures var all := s.pending + c.bytes; var emitted := |all| - s.hold;
      Buffer(s, c) ==
        Outcome(s.(received := true, first := Add64(start, n), count := s.count + c.sampleCount - n,
                   pending := all[emitted..]),
                Some([Chunk(s.request, s.format.value, all[..emitted], start, n)]))
  {
    assert n % TWO32 == n;
  }

  lemma SomeFrames(bytes: seq<Byte>, channels: nat)
    requires Aligned(bytes, channels) && bytes != []
    ensures Frames(bytes, channels) > 0
  {
    Division(|bytes|, 2 * channels);
    assert (2 * channels) * 0 == 0;
  }

  lemma EmitTracks(s: State, c: Chunk, at: nat)
    requires Sound(s) && s.format.Some? && Tracks(s, at) && at < TWO64
    requires Continues(c, s.format.value, s.request, at) && c.bytes != [] && |s.pending| + |c.bytes| > s.hold
    ensures var r := Buffer(s, c); var next := Add64(at, c.sampleCount);
      && r.out.Some? && |r.out.value| == 1 && Sound(r.state) && r.state.format.Some? && Tracks(r.state, next)
      && r.state.received
      && var x := r.out.value[0];
      && x.bytes != [] && |x.bytes| % s.frameBytes == 0 && x.firstSample == StartOf(s, at)
      && x.format == s.format.value && x.request == s.request
      && x.sampleCount == |x.bytes| / s.frameBytes < TWO32
      && r.state.first == Add64(StartOf(s, at), x.sampleCount)
  {
    BufferSound(s, c);
    Emission(|s.pending|, |c.bytes|, s.hold, s.frameBytes);
    var n := (|s.pending| + |c.bytes| - s.hold) / s.frameBytes;
    SomeFrames(c.bytes, s.format.value.channels);
    StartKept(s, at);
    EmitFields(s, c, StartOf(s, at), n);
    ClockAfter(s, at, c.sampleCount);
    Add64Assoc(StartOf(s, at), n, s.count + c.sampleCount - n);
  }

  lemma BufferTracks(s: State, c: Chunk, at: nat)
    requires Sound(s) && s.format.Some? && Tracks(s, at) && at < TWO64
    requires Continues(c, s.format.value, s.request, at)
    ensures var r := Buffer(s, c); var next := Add64(at, c.sampleCount);
      && r.out.Some? && Sound(r.state) && r.state.format.Some? && Tracks(r.state, next)
      && GapFree(r.out.value, s.format.value, s.request, StartOf(s, at))
      && EndOf(r.out.value, StartOf(s, at)) == StartOf(r.state, next)
  {
    if c.bytes == [] {
      EmptyTracks(s, c, at);
    } else if |s.pending| + |c.bytes| <= s.hold {
      HeldTracks(s, c, at);
    } else {
      EmitTracks(s, c, at);
      var out := Buffer(s, c).out.value;
      SingleChunk(out[0], s.format.value, s.request, StartOf(s, at));
      assert out == [out[0]];
    }
  }

  lemma EmptyTracks(s: State, c: Chunk, at: nat)
    requires Sound(s) && s.format.Some? && Tracks(s, at) && at < TWO64
    requires Continues(c, s.format.value, s.request, at) && c.bytes == []
    ensures c.sampleCount == 0 && Add64(at, 0) == at && Buffer(s, c) == Outcome(s, Some([]))
  {
    DivMod(s.frameBytes, 0, 0);
  }

  lemma SingleChunk(x: Chunk, format: Format, request: nat, at: nat)
    requires format.channels > 0 && x.bytes != [] && Aligned(x.bytes, format.channels) && x.firstSample == at
    requires x.format == format && x.request == request
    requires x.sampleCount == Frames(x.bytes, format.channels) < TWO32
    ensures GapFree([x], format, request, at) && EndOf([x], at) == Add64(at, x.sampleCount)
  {
    assert [x][1..] == [];
  }

  lemma {:induction false} GapFreeConcat(a: seq<Chunk>, b: seq<Chunk>, format: Format, request: nat, at: nat)
    requires format.channels > 0 && GapFree(a, format, request, at)
    ensures GapFree(a + b, format, request, at) <==> GapFree(b, format, request, EndOf(a, at))
    ensures EndOf(a + b, at) == EndOf(b, EndOf(a, at))
    decreases |a|
  {
    if a == [] {
      assert a + b == b;
    } else {
      assert (a + b)[1..] == a[1..] + b;
      GapFreeConcat(a[1..], b, format, request, Add64(at, a[0].sampleCount));
    }
  }

  lemma ProcessTracks(o: Options, s: State, c: Chunk, at: nat)
    requires Sound(s) && s.format.Some? && !s.finished && Tracks(s, at) && at < TWO64
    requires Continues(c, s.format.value, s.request, at)
    ensures var r := Process(o, s, c); var next := Add64(at, c.sampleCount);
      && r.out.Some? && Sound(r.state) && Tracks(r.state, next)
      && r.state.format == s.format && r.state.request == s.request && !r.state.finished
      && r.state.frameBytes == s.frameBytes
      && GapFree(r.out.value, s.format.value, s.request, StartOf(s, at))
      && EndOf(r.out.value, StartOf(s, at)) == StartOf(r.state, next)
  {
    BufferTracks(s, c, at);
    BufferBytes(s, c);
  }

  lemma {:induction false} FeedTracks(o: Options, s: State, chunks: seq<Chunk>, at: nat)
    requires Sound(s) && s.format.Some? && !s.finished && Tracks(s, at) && at < TWO64
    requires Contiguous(chunks, s.format.value, s.request, at)
    ensures Feed(o, s, chunks).Some?
    ensures var r := Feed(o, s, chunks).value;
      && Sound(r.state) && r.state.format == s.format && r.state.request == s.request && !r.state.finished
      && r.state.frameBytes == s.frameBytes
      && Tracks(r.state, EndOf(chunks, at))
      && GapFree(r.out, s.format.value, s.request, StartOf(s, at))
      && EndOf(r.out, StartOf(s, at)) == StartOf(r.state, EndOf(chunks, at))
    decreases |chunks|
  {
    if chunks != [] {
      var c := chunks[0];
      ProcessTracks(o, s, c, at);
      var r := Process(o, s, c);
      var next := Add64(at, c.sampleCount);
      FeedTracks(o, r.state, chunks[1..], next);
      var rest := Feed(o, r.state, chunks[1..]).value;
      GapFreeConcat(r.out.value, rest.out, s.format.value, s.request, StartOf(s, at));
    }
  }

  /** The durations fit the 64-bit byte counts. */
  predicate DurationsFit(o: Options, format: Format, reason: Reason) {
    DurationBytes(format, 2 * format.channels, o.fade).Some? &&
    DurationBytes(format, 2 * format.channels, SilenceMs(o, reason)).Some?
  }

  /** The frames of the last chunk: what is held at the end, and the silence. */
  function LastFrames(o: Options, format: Format, input: seq<Byte>, reason: Reason): nat
    requires format.channels > 0
  {
    if input == [] then 0
    else Min(DurationFrames(format, o.fade), Frames(input, format.channels)) + DurationFrames(format, SilenceMs(o, reason))
  }

  /** A contiguous stream with its counts set is accepted to the end. Its output is one
      gap-free timeline that starts where the input starts, exactly when the last chunk's
      frames fit the 32-bit count. */
  lemma StreamTimeline(o: Options, chunks: seq<Chunk>, reason: Reason, at: nat)
    requires chunks != [] && ValidFormat(chunks[0].format) && at < TWO64
    requires Contiguous(chunks, chunks[0].format, chunks[0].request, at)
    requires DurationsFit(o, chunks[0].format, reason)
    ensures Stream(o, chunks, reason).Some?
    ensures GapFree(Stream(o, chunks, reason).value, chunks[0].format, chunks[0].request, at) <==>
      LastFrames(o, chunks[0].format, Flat(chunks), reason) < TWO32
  {
    var c := chunks[0];
    var t := Configured(o, INITIAL, c);
    ConfiguredSound(o, INITIAL, c);
    DivMod(t.frameBytes, 0, 0);
    FeedTracks(o, t, chunks, at);
    FirstAccepted(o, chunks, at);
    FirstConfigures(o, chunks);
    FeedBytes(o, t, chunks);
    var fed := Feed(o, INITIAL, chunks).value;
    var last := Finish(o, fed.state, reason).out.value;
    HeldAtEnd(o, fed.state, Flat(chunks));
    FinishTracks(o, fed.state, reason);
    GapFreeConcat(fed.out, last, c.format, c.request, at);
  }

  /** One mono frame at the highest rate, and a second and a millisecond of silence. */
  const FAST := Format("s16le", 0xFFFF_FFFF, 1)
  const LONG_SILENCE := Options(0, 1001, 0)

  /** The count of the last chunk is cut there: a stream that is accepted and whose timeline
      has a gap. */
  lemma CountCut(request: nat, c: Chunk)
    requires c == Chunk(request, FAST, [0, 0], 0, 1)
    ensures Accepted(LONG_SILENCE) && Contiguous([c], FAST, request, 0)
    ensures Stream(LONG_SILENCE, [c], PostProcessorChain.Completed).Some?
    ensures !GapFree(Stream(LONG_SILENCE, [c], PostProcessorChain.Completed).value, FAST, request, 0)
  {
    assert [c][1..] == [];
    assert Flat([c]) == [0, 0];
    assert DurationFrames(FAST, 1001) >= TWO32;
    StreamTimeline(LONG_SILENCE, [c], PostProcessorChain.Completed, 0);
  }

  /** The frames held at the end, in terms of the whole input. */
  lemma HeldAtEnd(o: Options, s: State, input: seq<Byte>)
    requires Sound(s) && s.format.Some? && s.hold == DurationFrames(s.format.value, o.fade) * s.frameBytes
    requires |s.pending| == Min(s.hold, |input|) && |input| % s.frameBytes == 0
    ensures Frames(s.pending, s.format.value.channels) ==
      Min(DurationFrames(s.format.value, o.fade), Frames(input, s.format.value.channels))
  {
    var p, fade := s.frameBytes, DurationFrames(s.format.value, o.fade);
    Multiple(fade, p);
    Division(|input|, p);
    var frames := |input| / p;
    if fade <= frames {
      MulLe(p, fade, frames);
    } else {
      MulLe(p, frames, fade);
    }
  }

  lemma FirstAccepted(o: Options, chunks: seq<Chunk>, at: nat)
    requires chunks != [] && ValidFormat(chunks[0].format)
    requires Continues(chunks[0], chunks[0].format, chunks[0].request, at)
    requires DurationBytes(chunks[0].format, 2 * chunks[0].format.channels, o.fade).Some?
    requires Sound(Configured(o, INITIAL, chunks[0]))
    ensures Feed(o, INITIAL, chunks) == Feed(o, Configured(o, INITIAL, chunks[0]), chunks)
  {
  }

  /** The count of the last chunk is its number of frames, cut to 32 bits. */
  lemma LastCount(s: State, bytes: seq<Byte>, silence: nat)
    requires Sound(s) && s.format.Some? && |bytes| == |s.pending| + silence * s.frameBytes
    ensures Aligned(bytes, s.format.value.channels)
    ensures Frames(bytes, s.format.value.channels) == Frames(s.pending, s.format.value.channels) + silence
    ensures |bytes| / s.frameBytes == Frames(bytes, s.format.value.channels)
  {
    Multiple(silence, s.frameBytes);
    Multiples(|s.pending|, silence * s.frameBytes, s.frameBytes);
  }

  lemma LastChunk(x: Chunk, format: Format, request: nat, at: nat, frames: nat)
    requires format.channels > 0 && x.bytes != [] && Aligned(x.bytes, format.channels) && x.firstSample == at
    requires x.format == format && x.request == request
    requires frames == Frames(x.bytes, format.channels) && x.sampleCount == frames % TWO32
    ensures GapFree([x], format, request, at) <==> frames < TWO32
  {
    assert [x][1..] == [];
  }

  lemma FinishTracks(o: Options, s: State, reason: Reason)
    requires Sound(s) && s.format.Some? && !s.finished
    requires DurationBytes(s.format.value, s.frameBytes, SilenceMs(o, reason)).Some?
    ensures Finish(o, s, reason).out.Some?
    ensures s.received ==>
      (GapFree(Finish(o, s, reason).out.value, s.format.value, s.request, s.first) <==>
       Frames(s.pending, s.format.value.channels) + DurationFrames(s.format.value, SilenceMs(o, reason)) < TWO32)
    ensures !s.received ==> Finish(o, s, reason).out.value == []
  {
    var format, silence := s.format.value, DurationFrames(s.format.value, SilenceMs(o, reason));
    var out := Finish(o, s, reason).out.value;
    if s.received {
      var shaped := if reason.Error? || o.fade == 0 then s.pending else Faded(s.pending, format.channels);
      Multiple(silence, s.frameBytes);
      var bytes := shaped + Zeros(silence * s.frameBytes);
      LastCount(s, bytes, silence);
      if bytes != [] {
        assert out == [out[0]] && out[0].bytes == bytes;
        LastChunk(out[0], format, s.request, s.first, Frames(bytes, format.channels));
      } else {
        DivMod(s.frameBytes, 0, 0);
      }
    }
  }

  // ----- the object -----

  class TerminalFadePostProcessor {
    const options: Options
    var format: Option<Format>
    var request: nat
    var frameBytes: nat
    var hold: nat
    var first: nat
    var count: nat
    var received: bool
    var finished: bool
    var pending: seq<Byte>

    function View(): State
      reads this
    {
      State(format, request, frameBytes, hold, first, count, received, finished, pending)
    }

    constructor (o: Options)
      requires Accepted(o)
      ensures options == o && View() == INITIAL
    {
      options := o;
      format, request, frameBytes, hold, first, count := None, 0, 0, 0, 0, 0;
      received, finished, pending := false, false, [];
    }

    method Reset()
      modifies this
      ensures View() == INITIAL
    {
      format, request, frameBytes, hold, first, count := None, 0, 0, 0, 0, 0;
      received, finished, pending := false, false, [];
    }

    method Configure(c: Chunk) returns (ok: bool)
      requires Sound(View()) && format.None?
      modifies this
      ensures if ValidFormat(c.format) then View() == Configured(options, old(View()), c) else View() == old(View())
      ensures ok <==> ValidFormat(c.format) && DurationBytes(c.format, 2 * c.format.channels, options.fade).Some?
                      && ValidChunk(View(), c)
    {
      if c.format.encoding != "s16le" || c.format.rate == 0 || c.format.channels == 0 {
        return false;
      }
      format, request, frameBytes := Some(c.format), c.request, 2 * c.format.channels;
      var h := DurationBytes(c.format, frameBytes, options.fade);
      if h.None? {
        return false;
      }
      hold := h.value;
      ok := ValidChunk(View(), c);
    }

    method ProcessChunk(c: Chunk) returns (out: Option<seq<Chunk>>)
      requires Sound(View())
      modifies this
      ensures Sound(View())
      ensures View() == Process(options, old(View()), c).state && out == Process(options, old(View()), c).out
    {
      ProcessSound(options, View(), c);
      if finished {
        return Some([]);
      }
      if format.None? {
        var ok := Configure(c);
        if !ok {
          return None;
        }
      } else if !ValidChunk(View(), c) {
        return None;
      }
      out := BufferChunk(c);
    }

    method BufferChunk(c: Chunk) returns (out: Option<seq<Chunk>>)
      requires format.Some? && frameBytes > 0
      modifies this
      ensures View() == Buffer(old(View()), c).state && out == Buffer(old(View()), c).out
    {
      if c.bytes == [] {
        return Some([]);
      }
      HoldChunk(c);
      out := ReleaseExcess();
    }

    method HoldChunk(c: Chunk)
      requires frameBytes > 0
      modifies this`received, this`first, this`count, this`pending
      ensures View() == Held(old(View()), c)
    {
      received := true;
      if pending == [] {
        first := c.firstSample;
      }
      count := count + (if c.sampleCount != 0 then c.sampleCount else |c.bytes| / frameBytes);
      pending := pending + c.bytes;
    }

    method ReleaseExcess() returns (out: Option<seq<Chunk>>)
      requires format.Some? && frameBytes > 0
      modifies this`first, this`count, this`pending
      ensures View() == Released(old(View())).state && out == Released(old(View())).out
    {
      if |pending| <= hold {
        return Some([]);
      }
      var emitted := |pending| - hold;
      var chunk := Chunk(request, format.value, pending[..emitted], first, CountOf(View(), emitted));
      pending := pending[emitted..];
      first := Add64(first, chunk.sampleCount);
      count := count - Min(count, chunk.sampleCount);
      return Some([chunk]);
    }

    method FinishStream(reason: Reason) returns (out: Option<seq<Chunk>>)
      requires Sound(View())
      modifies this
      ensures View() == Finish(options, old(View()), reason).state && out == Finish(options, old(View()), reason).out
    {
      if finished {
        return Some([]);
      }
      finished := true;
      if !received || format.None? {
        pending := [];
        return Some([]);
      }
      if !reason.Error? && options.fade != 0 {
        var buffer := new Byte[|pending|](i requires 0 <= i < |pending| reads this => pending[i]);
        assert buffer[..] == pending;
        ApplyFade(buffer, format.value.channels);
        pending := buffer[..];
      }
      var padding := DurationBytes(format.value, frameBytes, SilenceMs(options, reason));
      if padding.None? {
        return None;
      }
      var bytes := pending + Zeros(padding.value);
      pending := [];
      if bytes == [] {
        return Some([]);
      }
      return Some([Chunk(request, format.value, bytes, first, |bytes| / frameBytes % TWO32)]);
    }
  }
}
