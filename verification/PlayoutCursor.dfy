/** The short faded tail that replaces the audio at and after a playback cursor. */
module PlayoutCursor {
  import opened Basics
  import opened Bits
  import opened Pcm

  const MAX64 := 0xFFFF_FFFF_FFFF_FFFF

  datatype PlayoutBuffer = PlayoutBuffer(chunk: Chunk, start: nat)
  datatype Fade = Refused | Nothing | Shaped(chunk: Chunk)

  // ----- what the caller must respect -----

  predicate ValidFormat(f: Format) { f.encoding == "s16le" && f.rate != 0 && f.channels != 0 }

  function Count(b: PlayoutBuffer): nat
    requires b.chunk.format.channels > 0
  {
    Frames(b.chunk.bytes, b.chunk.format.channels)
  }

  function End(b: PlayoutBuffer): nat
    requires b.chunk.format.channels > 0
  {
    b.start + Count(b)
  }

  predicate Uniform(buffers: seq<PlayoutBuffer>, format: Format)
    requires format.channels > 0
  {
    forall i :: 0 <= i < |buffers| ==>
      buffers[i].chunk.format == format && |buffers[i].chunk.bytes| % (2 * format.channels) == 0
  }

  /** Non-overlapping, in stream order, within the 64-bit frame clock; gaps are allowed. */
  predicate Ordered(buffers: seq<PlayoutBuffer>)
    requires forall i :: 0 <= i < |buffers| ==> buffers[i].chunk.format.channels > 0
  {
    && (forall i :: 0 <= i < |buffers| ==> End(buffers[i]) <= MAX64)
    && (forall i, j :: 0 <= i < j < |buffers| ==> End(buffers[i]) <= buffers[j].start)
  }

  /** No frame is at or after the cursor. */
  predicate AllPlayed(buffers: seq<PlayoutBuffer>, cursor: nat)
    requires forall i :: 0 <= i < |buffers| ==> buffers[i].chunk.format.channels > 0
  {
    forall i :: 0 <= i < |buffers| ==> Count(buffers[i]) == 0 || End(buffers[i]) <= cursor
  }

  predicate Acceptable(buffers: seq<PlayoutBuffer>)
    requires buffers != []
  {
    ValidFormat(buffers[0].chunk.format) && Uniform(buffers, buffers[0].chunk.format) && Ordered(buffers)
  }

  // ----- the reference: drop what is before the cursor, take the fade, ramp it -----

  function FadeFrames(format: Format, fadeMs: nat): nat { (format.rate * fadeMs + 999) / 1000 }

  function Size(channels: nat, frames: nat): (n: nat) {
    MulLe(2 * channels, 0, frames);
    (2 * channels) * frames
  }

  function Skip(b: PlayoutBuffer, cursor: nat): nat
    requires b.chunk.format.channels > 0
  {
    if cursor <= b.start then 0 else if cursor - b.start < Count(b) then cursor - b.start else Count(b)
  }

  lemma SkipFits(b: PlayoutBuffer, frames: nat)
    requires b.chunk.format.channels > 0 && frames <= Count(b)
    ensures 0 <= (2 * b.chunk.format.channels) * frames <= |b.chunk.bytes|
  {
    Division(|b.chunk.bytes|, 2 * b.chunk.format.channels);
    MulLe(2 * b.chunk.format.channels, frames, Count(b));
  }

  /** The bytes of one buffer at or after the cursor. */
  function Part(b: PlayoutBuffer, cursor: nat): seq<Byte>
    requires b.chunk.format.channels > 0
  {
    SkipFits(b, Skip(b, cursor));
    b.chunk.bytes[(2 * b.chunk.format.channels) * Skip(b, cursor)..]
  }

  function Tail(buffers: seq<PlayoutBuffer>, cursor: nat): seq<Byte>
    requires forall i :: 0 <= i < |buffers| ==> buffers[i].chunk.format.channels > 0
  {
    if buffers == [] then [] else Part(buffers[0], cursor) + Tail(buffers[1..], cursor)
  }

  function Take<T>(s: seq<T>, n: nat): seq<T> { if n < |s| then s[..n] else s }

  function Window(buffers: seq<PlayoutBuffer>, cursor: nat, fadeMs: nat): seq<Byte>
    requires buffers != [] && Acceptable(buffers)
  {
    var format := buffers[0].chunk.format;
    Take(Tail(buffers, cursor), Size(format.channels, FadeFrames(format, fadeMs)))
  }

  /** The request of the first buffer that ends after the cursor. */
  function FirstRequest(buffers: seq<PlayoutBuffer>, cursor: nat): nat
    requires forall i :: 0 <= i < |buffers| ==> buffers[i].chunk.format.channels > 0
  {
    if buffers == [] then 0
    else if cursor < End(buffers[0]) then buffers[0].chunk.request else FirstRequest(buffers[1..], cursor)
  }

  // ----- facts about the reference -----

  lemma PartSize(b: PlayoutBuffer, cursor: nat)
    requires b.chunk.format.channels > 0 && |b.chunk.bytes| % (2 * b.chunk.format.channels) == 0
    ensures |Part(b, cursor)| == (2 * b.chunk.format.channels) * (Count(b) - Skip(b, cursor))
    ensures Part(b, cursor) == [] <==> Count(b) == 0 || End(b) <= cursor
  {
    var p := 2 * b.chunk.format.channels;
    SkipFits(b, Skip(b, cursor));
    Division(|b.chunk.bytes|, p);
    MulSub(p, Count(b), Skip(b, cursor));
    if Skip(b, cursor) < Count(b) {
      MulLe(p, 1, Count(b) - Skip(b, cursor));
    }
  }

  lemma {:induction false} TailAligned(buffers: seq<PlayoutBuffer>, cursor: nat, format: Format)
    requires format.channels > 0 && Uniform(buffers, format)
    ensures |Tail(buffers, cursor)| % (2 * format.channels) == 0
  {
    var p := 2 * format.channels;
    DivMod(p, 0, 0);
    if buffers != [] {
      var b, t := buffers[0], |Tail(buffers[1..], cursor)|;
      TailAligned(buffers[1..], cursor, format);
      PartSize(b, cursor);
      Division(t, p);
      MulAdd(p, Count(b) - Skip(b, cursor), t / p);
      DivMod(p, Count(b) - Skip(b, cursor) + t / p, 0);
    }
  }

  /** There is nothing at or after the cursor exactly when every buffer is empty or ended. */
  lemma {:induction false} NoTail(buffers: seq<PlayoutBuffer>, cursor: nat, format: Format)
    requires format.channels > 0 && Uniform(buffers, format)
    ensures Tail(buffers, cursor) == [] <==>
      forall i :: 0 <= i < |buffers| ==> Count(buffers[i]) == 0 || End(buffers[i]) <= cursor
  {
    if buffers != [] {
      PartSize(buffers[0], cursor);
      NoTail(buffers[1..], cursor, format);
      assert forall i :: 0 <= i < |buffers| - 1 ==> buffers[1..][i] == buffers[i + 1];
    }
  }

  lemma WindowAligned(buffers: seq<PlayoutBuffer>, cursor: nat, fadeMs: nat)
    requires buffers != [] && Acceptable(buffers)
    ensures Aligned(Window(buffers, cursor, fadeMs), buffers[0].chunk.format.channels)
    ensures fadeMs > 0 ==> FadeFrames(buffers[0].chunk.format, fadeMs) > 0
    ensures fadeMs > 0 ==> (Window(buffers, cursor, fadeMs) == [] <==> Tail(buffers, cursor) == [])
  {
    var format := buffers[0].chunk.format;
    TailAligned(buffers, cursor, format);
    DivMod(2 * format.channels, FadeFrames(format, fadeMs), 0);
    if fadeMs > 0 {
      MulLe(format.rate, 1, fadeMs);
      MulLe(2 * format.channels, 1, FadeFrames(format, fadeMs));
    }
  }

  // ----- the loops -----

  method CheckFormats(buffers: seq<PlayoutBuffer>, format: Format) returns (ok: bool)
    requires format.channels > 0
    ensures ok <==> Uniform(buffers, format)
  {
    for i := 0 to |buffers|
      invariant Uniform(buffers[..i], format)
    {
      if buffers[i].chunk.format != format || |buffers[i].chunk.bytes| % (2 * format.channels) != 0 {
        return false;
      }
      assert buffers[..i + 1] == buffers[..i] + [buffers[i]];
    }
    assert buffers[..|buffers|] == buffers;
    return true;
  }

  method CheckOrder(buffers: seq<PlayoutBuffer>, format: Format) returns (ok: bool)
    requires format.channels > 0 && Uniform(buffers, format)
    ensures ok <==> Ordered(buffers)
  {
    var previousEnd: nat := 0;
    for i := 0 to |buffers|
      invariant forall k :: 0 <= k < i ==> End(buffers[k]) <= MAX64 && End(buffers[k]) <= previousEnd
      invariant forall j, k :: 0 <= j < k < i ==> End(buffers[j]) <= buffers[k].start
      invariant i > 0 ==> previousEnd == End(buffers[i - 1])
    {
      if Count(buffers[i]) > MAX64 - buffers[i].start {
        return false;
      }
      if i > 0 && buffers[i].start < previousEnd {
        return false;
      }
      previousEnd := End(buffers[i]);
    }
    return true;
  }

  method FindFirst(buffers: seq<PlayoutBuffer>, cursor: nat, format: Format) returns (first: nat)
    requires format.channels > 0 && Uniform(buffers, format)
    ensures first <= |buffers|
    ensures first < |buffers| ==> cursor < End(buffers[first])
    ensures Tail(buffers, cursor) == Tail(buffers[first..], cursor)
    ensures first < |buffers| ==> FirstRequest(buffers, cursor) == buffers[first].chunk.request
  {
    first := 0;
    while first < |buffers| && cursor >= End(buffers[first])
      invariant first <= |buffers|
      invariant Tail(buffers, cursor) == Tail(buffers[first..], cursor)
      invariant FirstRequest(buffers, cursor) == FirstRequest(buffers[first..], cursor)
    {
      PartSize(buffers[first], cursor);
      assert buffers[first..][1..] == buffers[first + 1..];
      first := first + 1;
    }
  }

  lemma TakeConcat<T>(a: seq<T>, b: seq<T>, n: nat)
    ensures n <= |a| ==> Take(a + b, n) == a[..n]
    ensures n >= |a| ==> Take(a + b, n) == a + Take(b, n - |a|)
  {
  }

  /** What one buffer contributes when `remaining` frames are wanted. */
  lemma CopyPart(b: PlayoutBuffer, cursor: nat, remaining: nat, rest: seq<Byte>)
    requires b.chunk.format.channels > 0 && |b.chunk.bytes| % (2 * b.chunk.format.channels) == 0
    ensures var p := 2 * b.chunk.format.channels; var left := Count(b) - Skip(b, cursor);
      var frames := if remaining < left then remaining else left;
      && 0 <= p * Skip(b, cursor) <= p * Skip(b, cursor) + p * frames <= |b.chunk.bytes|
      && p * remaining >= 0 && p * (remaining - frames) >= 0
      && Take(Part(b, cursor) + rest, p * remaining) ==
         b.chunk.bytes[p * Skip(b, cursor)..p * Skip(b, cursor) + p * frames] + Take(rest, p * (remaining - frames))
  {
    var p := 2 * b.chunk.format.channels;
    var left := Count(b) - Skip(b, cursor);
    var frames := if remaining < left then remaining else left;
    PartSize(b, cursor);
    SkipFits(b, Skip(b, cursor));
    SkipFits(b, Skip(b, cursor) + frames);
    MulAdd(p, Skip(b, cursor), frames);
    MulLe(p, frames, left);
    MulSub(p, remaining, frames);
    MulLe(p, 0, remaining - frames);
    TakeConcat(Part(b, cursor), rest, p * remaining);
  }

  /** Copies what one buffer contributes. */
  method CopyFrames(b: PlayoutBuffer, ghost cursor: nat, offset: nat, remaining: nat, ghost rest: seq<Byte>)
    returns (part: seq<Byte>, left: nat)
    requires b.chunk.format.channels > 0 && |b.chunk.bytes| % (2 * b.chunk.format.channels) == 0
    requires offset == Skip(b, cursor)
    ensures part + Take(rest, Size(b.chunk.format.channels, left))
      == Take(Part(b, cursor) + rest, Size(b.chunk.format.channels, remaining))
  {
    CopyPart(b, cursor, remaining, rest);
    if offset >= Count(b) {
      assert (2 * b.chunk.format.channels) * 0 == 0;
      return [], remaining;
    }
    var frames := if remaining < Count(b) - offset then remaining else Count(b) - offset;
    var begin := (2 * b.chunk.format.channels) * offset;
    return b.chunk.bytes[begin..begin + (2 * b.chunk.format.channels) * frames], remaining - frames;
  }

  /** Where the cursor falls in a buffer at or after the first one that ends after it. */
  lemma OffsetIsSkip(buffers: seq<PlayoutBuffer>, cursor: nat, first: nat, index: nat)
    requires forall i :: 0 <= i < |buffers| ==> buffers[i].chunk.format.channels > 0
    requires Ordered(buffers) && first <= index < |buffers| && cursor < End(buffers[first])
    ensures Skip(buffers[index], cursor) ==
      if index == first && cursor > buffers[index].start then cursor - buffers[index].start else 0
  {
  }

  method Gather(buffers: seq<PlayoutBuffer>, cursor: nat, first: nat, fadeFrames: nat, format: Format)
    returns (bytes: seq<Byte>)
    requires format.channels > 0 && Uniform(buffers, format) && Ordered(buffers)
    requires first < |buffers| && cursor < End(buffers[first])
    ensures bytes == Take(Tail(buffers[first..], cursor), Size(format.channels, fadeFrames))
  {
    var remaining, index := fadeFrames, first;
    bytes := [];
    while index < |buffers| && remaining != 0
      invariant first <= index <= |buffers|
      invariant bytes + Take(Tail(buffers[index..], cursor), Size(format.channels, remaining))
        == Take(Tail(buffers[first..], cursor), Size(format.channels, fadeFrames))
    {
      var b := buffers[index];
      var offset := if index == first && cursor > b.start then cursor - b.start else 0;
      OffsetIsSkip(buffers, cursor, first, index);
      ghost var rest := Tail(buffers[index + 1..], cursor);
      assert buffers[index..][1..] == buffers[index + 1..];
      var part, left := CopyFrames(b, cursor, offset, remaining, rest);
      Reassoc(bytes, part, Take(rest, Size(format.channels, left)));
      bytes, remaining, index := bytes + part, left, index + 1;
    }
    assert Size(format.channels, 0) == 0 && bytes + [] == bytes;
  }

  lemma Reassoc<T>(a: seq<T>, b: seq<T>, c: seq<T>)
    ensures a + (b + c) == (a + b) + c
  {
  }

  /** The fade equals the reference on every input: refused exactly when the buffers break
      the rules, nothing exactly when no frame is left, else the ramped window. */
  method MakePlayoutCursorFade(buffers: seq<PlayoutBuffer>, cursor: nat, fadeMs: nat) returns (r: Fade)
    ensures r.Refused? <==> buffers != [] && fadeMs != 0 && !Acceptable(buffers)
    ensures buffers == [] || fadeMs == 0 ==> r == Nothing
    ensures buffers != [] && fadeMs != 0 && Acceptable(buffers) ==>
      && (r == Nothing <==> AllPlayed(buffers, cursor))
      && (r.Shaped? ==>
            && Aligned(Window(buffers, cursor, fadeMs), buffers[0].chunk.format.channels)
            && r.chunk == Chunk(FirstRequest(buffers, cursor), buffers[0].chunk.format,
                                Faded(Window(buffers, cursor, fadeMs), buffers[0].chunk.format.channels), 0, 0))
  {
    if buffers == [] || fadeMs == 0 {
      return Nothing;
    }
    var format := buffers[0].chunk.format;
    if format.encoding != "s16le" || format.rate == 0 || format.channels == 0 {
      return Refused;
    }
    var fadeFrames := FadeFrames(format, fadeMs);
    MulLe(format.rate, 1, fadeMs);
    assert fadeFrames != 0;
    var ok := CheckFormats(buffers, format);
    if !ok {
      return Refused;
    }
    ok := CheckOrder(buffers, format);
    if !ok {
      return Refused;
    }
    WindowAligned(buffers, cursor, fadeMs);
    NoTail(buffers, cursor, format);
    var first := FindFirst(buffers, cursor, format);
    if first == |buffers| {
      assert buffers[first..] == [];
      return Nothing;
    }
    var bytes := Gather(buffers, cursor, first, fadeFrames, format);
    assert bytes == Window(buffers, cursor, fadeMs);
    if bytes == [] {
      return Nothing;
    }
    var buffer := new Byte[|bytes|](i requires 0 <= i < |bytes| => bytes[i]);
    assert buffer[..] == bytes;
    ApplyFade(buffer, format.channels);
    return Shaped(Chunk(buffers[first].chunk.request, format, buffer[..], 0, 0));
  }

  /** On 32-bit rates and durations, 64-bit frame clocks and buffers that fit in memory, no
      intermediate value overflows: the fade length, the end of a buffer, the begin and the end
      of a copy, and the offset of a sample in the window. */
  lemma NoOverflow(buffers: seq<PlayoutBuffer>, i: nat, cursor: nat, fadeMs: nat, copied: nat)
    requires i < |buffers| && Acceptable(buffers) && |buffers[i].chunk.bytes| <= MAX64
    requires buffers[0].chunk.format.rate < 0x1_0000_0000 && fadeMs < 0x1_0000_0000
    requires copied <= Count(buffers[i]) - Skip(buffers[i], cursor)
    ensures buffers[0].chunk.format.rate * fadeMs + 999 <= MAX64
    ensures End(buffers[i]) <= MAX64
    ensures var p := 2 * buffers[0].chunk.format.channels;
      0 <= p * Skip(buffers[i], cursor) <= p * Skip(buffers[i], cursor) + p * copied <= |buffers[i].chunk.bytes|
  {
    var b := buffers[i];
    MulLe(buffers[0].chunk.format.rate, fadeMs, 0xFFFF_FFFF);
    SkipFits(b, Skip(b, cursor));
    SkipFits(b, Skip(b, cursor) + copied);
    MulAdd(2 * b.chunk.format.channels, Skip(b, cursor), copied);
    MulLe(2 * b.chunk.format.channels, 0, copied);
  }

  lemma RampInside(buffers: seq<PlayoutBuffer>, cursor: nat, fadeMs: nat, frame: nat, channel: nat)
    requires buffers != [] && Acceptable(buffers) && channel < buffers[0].chunk.format.channels
    requires frame < Frames(Window(buffers, cursor, fadeMs), buffers[0].chunk.format.channels)
    ensures frame * (2 * buffers[0].chunk.format.channels) + channel * 2 + 1 < |Window(buffers, cursor, fadeMs)|
  {
    var channels := buffers[0].chunk.format.channels;
    WindowAligned(buffers, cursor, fadeMs);
    InRange(Window(buffers, cursor, fadeMs), channels, frame, channel);
    MulAssoc(2, channels, frame);
    MulSwap(2, frame, channels);
  }
}
