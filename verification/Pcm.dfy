/** Interleaved signed 16-bit little-endian PCM, and the linear ramp that both the terminal
    fade and the playout cursor apply in place. Gains are exact rationals. */
module Pcm {
  import opened Basics
  import opened Bits

  datatype Format = Format(encoding: string, rate: nat, channels: nat)
  datatype Chunk = Chunk(request: nat, format: Format, bytes: seq<Byte>, firstSample: nat, sampleCount: nat)

  function SampleOf(low: Byte, high: Byte): (v: int)
    ensures -32768 <= v <= 32767
  {
    if high < 128 then low + 256 * high else low + 256 * high - 65536
  }

  function LowByte(v: int): Byte { v % 256 }
  function HighByte(v: int): Byte { (v % 65536) / 256 }

  /** Writing a sample and reading it back gives the sample, and the other way round. */
  lemma SampleBytes(v: int)
    requires -32768 <= v <= 32767
    ensures SampleOf(LowByte(v), HighByte(v)) == v
  {
    if v >= 0 {
      assert v % 65536 == v;
    } else {
      assert v % 65536 == v + 65536;
      assert v % 256 == (v + 65536) % 256;
    }
  }

  lemma BytesSample(low: Byte, high: Byte)
    ensures LowByte(SampleOf(low, high)) == low && HighByte(SampleOf(low, high)) == high
  {
  }

  // ----- rounding -----

  /** n / d to the nearest integer, halves away from zero. */
  function RoundDiv(n: int, d: nat): int
    requires d > 0
  {
    if n >= 0 then (2 * n + d) / (2 * d) else -((-2 * n + d) / (2 * d))
  }

  function Clamp(v: int): int { if v < -32768 then -32768 else if v > 32767 then 32767 else v }

  /** One sample of a ramp over `frames` frames, from full gain to silence. */
  function Shape(sample: int, frames: nat, frame: nat): int
    requires frame < frames
  {
    if frames == 1 then 0 else Clamp(RoundDiv(sample * (frames - 1 - frame), frames - 1))
  }

  lemma QuotientBound(n: nat, d: nat, k: nat)
    requires d > 0 && n <= k * d
    ensures (2 * n + d) / (2 * d) <= k
  {
    var v, q := 2 * n + d, (2 * n + d) / (2 * d);
    Division(v, 2 * d);
    if q > k {
      MulLe(2 * d, k + 1, q);
      MulAdd(2 * d, k, 1);
      assert (2 * d) * k == 2 * (k * d) by { MulAssoc(2, d, k); MulSwap(2, d, k); }
    }
  }

  lemma MulNeg(a: int, b: int)
    ensures (-a) * b == -(a * b)
  {
  }

  /** Rounding is symmetric about zero and never leaves the sample's own range. */
  lemma ShapeBound(sample: int, frames: nat, frame: nat)
    requires -32768 <= sample <= 32767 && frame < frames
    ensures var r := Shape(sample, frames, frame);
      (sample >= 0 ==> 0 <= r <= sample) && (sample <= 0 ==> sample <= r <= 0)
  {
    if frames > 1 {
      var a, d := frames - 1 - frame, frames - 1;
      var size := if sample >= 0 then sample else -sample;
      MulNeg(sample, a);
      MulLe(size, a, d);
      MulLe(size, 0, a);
      QuotientBound(size * a, d, size);
      Division(2 * (size * a) + d, 2 * d);
    }
  }

  /** The first frame of a ramp of more than one frame keeps its value; the last is silent. */
  lemma ShapeEnds(sample: int, frames: nat)
    requires -32768 <= sample <= 32767 && frames > 0
    ensures Shape(sample, frames, frames - 1) == 0
    ensures frames > 1 ==> Shape(sample, frames, 0) == sample
  {
    var d := frames - 1;
    if frames > 1 {
      assert sample * 0 == 0;
      assert d / (2 * d) == 0 by { DivMod(2 * d, 0, d); }
      var size := if sample >= 0 then sample else -sample;
      MulNeg(sample, d);
      MulAssoc(2, d, size);
      MulSwap(2, size, d);
      DivMod(2 * d, size, d);
    }
  }

  lemma RoundDivNearest(n: int, d: nat)
    requires d > 0
    ensures 2 * n - d <= 2 * (d * RoundDiv(n, d)) <= 2 * n + d
  {
    var size := if n >= 0 then n else -n;
    var q := (2 * size + d) / (2 * d);
    Division(2 * size + d, 2 * d);
    MulAssoc(2, d, q);
    MulNeg(q, d);
  }

  /** The clamp never acts: the result is a nearest integer to sample * gain. */
  lemma ShapeNearest(sample: int, frames: nat, frame: nat)
    requires -32768 <= sample <= 32767 && frame < frames && frames > 1
    ensures var n, d := sample * (frames - 1 - frame), frames - 1;
      2 * n - d <= 2 * (d * Shape(sample, frames, frame)) <= 2 * n + d
  {
    var a, d := frames - 1 - frame, frames - 1;
    var size := if sample >= 0 then sample else -sample;
    MulNeg(sample, a);
    MulLe(size, a, d);
    MulLe(size, 0, a);
    QuotientBound(size * a, d, size);
    assert Shape(sample, frames, frame) == RoundDiv(sample * a, d);
    RoundDivNearest(sample * a, d);
  }

  // ----- the ramp over a buffer -----

  function SampleAt(s: seq<Byte>, j: nat): int
    requires 2 * j + 1 < |s|
  {
    SampleOf(s[2 * j], s[2 * j + 1])
  }

  /** A whole number of frames. */
  predicate Aligned(s: seq<Byte>, channels: nat) { channels > 0 && |s| % (2 * channels) == 0 }

  function Frames(s: seq<Byte>, channels: nat): nat
    requires channels > 0
  {
    Division(|s|, 2 * channels);
    |s| / (2 * channels)
  }

  lemma FrameOf(s: seq<Byte>, channels: nat, j: nat)
    requires Aligned(s, channels) && 2 * j < |s|
    ensures 2 * j + 1 < |s| && j / channels < Frames(s, channels)
    ensures |s| == 2 * (channels * Frames(s, channels))
  {
    var frames := Frames(s, channels);
    Division(|s|, 2 * channels);
    MulAssoc(2, channels, frames);
    Division(j, channels);
    if j / channels >= frames {
      MulLe(channels, frames, j / channels);
    }
  }

  /** Sample j of the faded buffer. */
  function Shaped(s: seq<Byte>, channels: nat, j: nat): int
    requires Aligned(s, channels) && 2 * j < |s|
  {
    FrameOf(s, channels, j);
    Shape(SampleAt(s, j), Frames(s, channels), j / channels)
  }

  function FadedByte(s: seq<Byte>, channels: nat, i: nat): Byte
    requires Aligned(s, channels) && i < |s|
  {
    var v := Shaped(s, channels, i / 2);
    if i % 2 == 0 then LowByte(v) else HighByte(v)
  }

  /** The whole buffer ramped down to silence. */
  function Faded(s: seq<Byte>, channels: nat): (r: seq<Byte>)
    requires Aligned(s, channels)
    ensures |r| == |s|
  {
    seq(|s|, i requires 0 <= i < |s| => FadedByte(s, channels, i))
  }

  /** What the ramp does to each sample: no growth, no change of sign, a nearest value on
      the line from full gain to zero, the first frame kept and the last one silent. */
  lemma FadedSample(s: seq<Byte>, channels: nat, j: nat)
    requires Aligned(s, channels) && 2 * j < |s|
    ensures 2 * j + 1 < |s| && j / channels < Frames(s, channels)
    ensures var (x, y) := (SampleAt(s, j), SampleAt(Faded(s, channels), j));
      && (x >= 0 ==> 0 <= y <= x) && (x <= 0 ==> x <= y <= 0)
      && var (last, frame) := (Frames(s, channels) - 1, j / channels);
      && (frame == last ==> y == 0)
      && (frame == 0 && last > 0 ==> y == x)
      && (last > 0 ==> 2 * (x * (last - frame)) - last <= 2 * (last * y) <= 2 * (x * (last - frame)) + last)
  {
    FrameOf(s, channels, j);
    var x, frames, frame := SampleAt(s, j), Frames(s, channels), j / channels;
    ShapeBound(x, frames, frame);
    SampleBytes(Shape(x, frames, frame));
    assert (2 * j) / 2 == j && (2 * j + 1) / 2 == j;
    assert SampleAt(Faded(s, channels), j) == Shape(x, frames, frame);
    ShapeEnds(x, frames);
    if frames > 1 {
      ShapeNearest(x, frames, frame);
    }
  }

  predicate FadedUpTo(now: seq<Byte>, was: seq<Byte>, channels: nat, done: nat)
    requires Aligned(was, channels) && |now| == |was|
  {
    forall i :: 0 <= i < |was| ==> now[i] == if i < 2 * done then FadedByte(was, channels, i) else was[i]
  }

  /** One sample of the nested loop. */
  method FadeSample(a: array<Byte>, ghost was: seq<Byte>, channels: nat, frames: nat, frame: nat, channel: nat)
    requires Aligned(was, channels) && a.Length == |was| && frames == Frames(was, channels)
    requires frame < frames && channel < channels && FadedUpTo(a[..], was, channels, channels * frame + channel)
    modifies a
    ensures FadedUpTo(a[..], was, channels, channels * frame + channel + 1)
  {
    ghost var j := channels * frame + channel;
    InRange(was, channels, frame, channel);
    var offset := frame * (2 * channels) + channel * 2;
    assert offset == 2 * j by { MulAssoc(2, channels, frame); MulSwap(2, frame, channels); }
    ghost var before := a[..];
    assert before[offset] == was[2 * j] && before[offset + 1] == was[2 * j + 1];
    var sample := SampleOf(a[offset], a[offset + 1]);
    var shaped := Shape(sample, frames, frame);
    assert shaped == Shaped(was, channels, j);
    a[offset] := LowByte(shaped);
    a[offset + 1] := HighByte(shaped);
    forall i | 0 <= i < |was|
      ensures a[..][i] == if i < 2 * (j + 1) then FadedByte(was, channels, i) else was[i]
    {
      if i == offset || i == offset + 1 {
        assert i / 2 == j;
      } else {
        assert a[..][i] == before[i];
      }
    }
  }

  lemma InRange(s: seq<Byte>, channels: nat, frame: nat, channel: nat)
    requires Aligned(s, channels) && frame < Frames(s, channels) && channel < channels
    ensures var j := channels * frame + channel; 2 * j + 1 < |s| && j / channels == frame
  {
    var frames := Frames(s, channels);
    Division(|s|, 2 * channels);
    MulAssoc(2, channels, frames);
    MulLe(channels, frame + 1, frames);
    MulAdd(channels, frame, 1);
    DivMod(channels, frame, channel);
  }

  /** The in-place ramp. */
  method ApplyFade(a: array<Byte>, channels: nat)
    requires Aligned(a[..], channels)
    modifies a
    ensures a[..] == Faded(old(a[..]), channels)
  {
    ghost var was := a[..];
    var frames := a.Length / (2 * channels);
    var frame := 0;
    assert channels * 0 == 0;
    while frame < frames
      invariant frame <= frames
      invariant FadedUpTo(a[..], was, channels, channels * frame)
    {
      var channel := 0;
      while channel < channels
        invariant channel <= channels
        invariant FadedUpTo(a[..], was, channels, channels * frame + channel)
      {
        FadeSample(a, was, channels, frames, frame, channel);
        channel := channel + 1;
      }
      MulAdd(channels, frame, 1);
      frame := frame + 1;
    }
    Division(|was|, 2 * channels);
    MulAssoc(2, channels, frames);
    assert a[..] == Faded(was, channels);
  }
}
