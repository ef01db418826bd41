/** WAV files as the bridge writes them and as the worker reads reference audio, following the
    WAVE section of the IBM/Microsoft Multimedia Programming Interface and Data
    Specifications 1.0. Sample values are exact reals. */
module Wav {
  import opened Basics
  import opened Bits
  import opened Pcm

  const MAX32 := 0xFFFF_FFFF
  const GIB := 0x4000_0000
  const RIFF_SIZE_WITHOUT_DATA := 36

  // ----- little-endian fields -----

  function U16(b: seq<Byte>, at: nat): nat
    requires at + 2 <= |b|
  {
    b[at] as int + 256 * b[at + 1] as int
  }

  function U32(b: seq<Byte>, at: nat): nat
    requires at + 4 <= |b|
  {
    b[at] as int + 256 * b[at + 1] as int + 65536 * b[at + 2] as int + 16777216 * b[at + 3] as int
  }

  function Le16(v: nat): (r: seq<Byte>)
    ensures |r| == 2
  {
    [v % 256, v / 256 % 256]
  }

  function Le32(v: nat): (r: seq<Byte>)
    ensures |r| == 4
  {
    [v % 256, v / 256 % 256, v / 65536 % 256, v / 16777216 % 256]
  }

  lemma Le16Reads(v: nat)
    requires v < 65536
    ensures U16(Le16(v), 0) == v
  {
  }

  lemma Le32Reads(v: nat)
    requires v <= MAX32
    ensures U32(Le32(v), 0) == v
  {
    assert v / 256 / 256 == v / 65536 && v / 65536 / 256 == v / 16777216;
  }

  const RIFF: seq<Byte> := [82, 73, 70, 70]
  const WAVE: seq<Byte> := [87, 65, 86, 69]
  const FMT: seq<Byte> := [102, 109, 116, 32]
  const DATA: seq<Byte> := [100, 97, 116, 97]

  // ----- the writer -----

  datatype Layout = Layout(rate: nat, channels: nat, bits: nat)

  function BlockAlign(l: Layout): nat { if l.bits == 8 then l.channels else if l.bits == 16 then 2 * l.channels else if l.bits == 24 then 3 * l.channels else 4 * l.channels }

  /** What the constructor demands. */
  predicate Writable(l: Layout) {
    0 < l.rate <= MAX32 && 0 < l.channels < 65536 && l.bits in {8, 16, 24, 32} &&
    BlockAlign(l) < 65536 && l.rate * BlockAlign(l) <= MAX32
  }

  function FmtBody(l: Layout): (r: seq<Byte>)
    requires Writable(l)
    ensures |r| == 16
  {
    Le16(1) + Le16(l.channels) + Le32(l.rate) + Le32(l.rate * BlockAlign(l)) + Le16(BlockAlign(l)) + Le16(l.bits)
  }

  function Chunk8(id: seq<Byte>, size: nat): (r: seq<Byte>)
    requires |id| == 4
    ensures |r| == 8
  {
    id + Le32(size)
  }

  function Header(l: Layout, size: nat): (r: seq<Byte>)
    requires Writable(l)
    ensures |r| == 44
  {
    RIFF + Le32(RIFF_SIZE_WITHOUT_DATA + size) + WAVE + Chunk8(FMT, 16) + FmtBody(l) + Chunk8(DATA, size)
  }

  predicate Accepts(l: Layout, closed: bool, dataSize: nat, size: nat) {
    !closed && (size == 0 || (BlockAlign(l) > 0 && size % BlockAlign(l) == 0 &&
                              dataSize <= MAX32 - RIFF_SIZE_WITHOUT_DATA &&
                              size <= MAX32 - RIFF_SIZE_WITHOUT_DATA - dataSize))
  }

  class WavWriter {
    const layout: Layout
    var file: seq<Byte>
    var dataSize: nat
    var closed: bool

    /** An open file starts with a header that says it is empty; closing corrects it. */
    ghost predicate Valid()
      reads this
    {
      && Writable(layout) && dataSize <= MAX32 - RIFF_SIZE_WITHOUT_DATA && |file| == 44 + dataSize
      && file[..44] == Header(layout, if closed then dataSize else 0)
    }

    constructor (l: Layout)
      requires Writable(l)
      ensures Valid() && layout == l && !closed && dataSize == 0 && file == Header(l, 0)
    {
      layout, file, dataSize, closed := l, Header(l, 0), 0, false;
    }

    method WritePcm(data: seq<Byte>) returns (ok: bool)
      requires Valid()
      modifies this
      ensures Valid() && closed == old(closed)
      ensures ok == Accepts(layout, old(closed), old(dataSize), |data|)
      ensures file == old(file) + (if ok then data else [])
    {
      if closed {
        return false;
      }
      if |data| == 0 {
        return true;
      }
      if |data| % BlockAlign(layout) != 0 {
        return false;
      }
      if |data| > MAX32 - RIFF_SIZE_WITHOUT_DATA - dataSize {
        return false;
      }
      file := file + data;
      dataSize := dataSize + |data|;
      return true;
    }

    method Close()
      requires Valid()
      modifies this
      ensures Valid() && closed && dataSize == old(dataSize)
      ensures file == Header(layout, dataSize) + old(file)[44..]
    {
      if closed {
        assert file == file[..44] + file[44..];
        return;
      }
      ghost var was := file;
      file := file[..4] + Le32(RIFF_SIZE_WITHOUT_DATA + dataSize) + file[8..];
      file := file[..40] + Le32(dataSize) + file[44..];
      closed := true;
      PatchedHeader(layout, dataSize, was);
    }
  }

  /** The two fields that closing rewrites are all that differs between the headers. */
  lemma PatchedHeader(l: Layout, size: nat, was: seq<Byte>)
    requires Writable(l) && |was| >= 44 && was[..44] == Header(l, 0)
    ensures was[..4] + Le32(RIFF_SIZE_WITHOUT_DATA + size) + was[8..40] + Le32(size) == Header(l, size)
    ensures var once := was[..4] + Le32(RIFF_SIZE_WITHOUT_DATA + size) + was[8..];
      once[..40] + Le32(size) + once[44..] == Header(l, size) + was[44..]
  {
    HeaderParts(l, 0, was);
    HeaderParts(l, size, Header(l, size));
    var once := was[..4] + Le32(RIFF_SIZE_WITHOUT_DATA + size) + was[8..];
    assert once[..40] == was[..4] + Le32(RIFF_SIZE_WITHOUT_DATA + size) + was[8..40];
    assert once[44..] == was[44..];
  }

  lemma HeaderParts(l: Layout, size: nat, file: seq<Byte>)
    requires Writable(l) && |file| >= 44 && file[..44] == Header(l, size)
    ensures file[..4] == RIFF && file[8..40] == WAVE + Chunk8(FMT, 16) + FmtBody(l) + DATA
    ensures Header(l, size) == file[..4] + Le32(RIFF_SIZE_WITHOUT_DATA + size) + file[8..40] + Le32(size)
  {
    var body := WAVE + Chunk8(FMT, 16) + FmtBody(l) + DATA;
    var h := RIFF + Le32(RIFF_SIZE_WITHOUT_DATA + size) + body + Le32(size);
    assert Header(l, size) == h;
    assert h[..4] == RIFF && h[8..40] == body;
    assert file[..4] == file[..44][..4] && file[8..40] == file[..44][8..40];
  }

  // ----- the reader -----

  datatype WaveFormat = WaveFormat(tag: nat, channels: nat, rate: nat, bits: nat)

  /** What the chunk loop has found. */
  datatype Found = Found(format: Option<WaveFormat>, data: seq<Byte>)

  function FormatOf(body: seq<Byte>): WaveFormat
    requires |body| >= 16
  {
    WaveFormat(U16(body, 0), U16(body, 2), U32(body, 4), U16(body, 14))
  }

  predicate Searching(f: Found) { f.format.None? || f.data == [] }

  /** Seeking and padding may run past the end of the file. */
  function Skip(b: seq<Byte>, n: nat): seq<Byte> { if n <= |b| then b[n..] else [] }

  function Padded(size: nat): nat { size + size % 2 }

  /** One chunk, from its header on. */
  function TakeChunk(b: seq<Byte>, f: Found): Result<Found>
    requires |b| >= 8
  {
    var size := U32(b, 4);
    if size > GIB then Err("chunk is too large")
    else if b[..4] == FMT then
      (if size < 16 then Err("fmt chunk is too small")
       else if 8 + size > |b| then Err("truncated fmt chunk")
       else Ok(f.(format := Some(FormatOf(b[8..8 + size])))))
    else if b[..4] == DATA then
      (if 8 + size > |b| then Err("truncated data chunk") else Ok(f.(data := b[8..8 + size])))
    else Ok(f)
  }

  function Scan(b: seq<Byte>, f: Found): Result<Found>
    decreases |b|
  {
    if !Searching(f) || b == [] then Ok(f)
    else if |b| < 8 then Err("truncated chunk header")
    else
      var r := TakeChunk(b, f);
      if r.Err? then r else Scan(Skip(b, 8 + Padded(U32(b, 4))), r.value)
  }

  /** Samples as fractions of full scale. */
  type Audio = seq<real>

  function Fraction(v: int): real { v as real / 32768.0 }

  function Fractions(data: seq<Byte>): seq<real>
    requires |data| % 2 == 0
  {
    seq(|data| / 2, i requires 0 <= i < |data| / 2 => Fraction(SampleAt(data, i)))
  }

  /** The value of an IEEE 754 single, None for infinities and NaN. */
  function Float32(word: nat): Option<real> {
    var exponent, fraction := word / 0x80_0000 % 256, word % 0x80_0000;
    if exponent == 255 then None
    else
      var magnitude := if exponent == 0 then Scaled(fraction, -149) else Scaled(0x80_0000 + fraction, exponent - 150);
      Some(if word / 0x8000_0000 % 2 == 1 then -magnitude else magnitude)
  }

  /** m * 2^e. */
  function Scaled(m: nat, e: int): real {
    if e >= 0 then (m * Pow2(e)) as real else m as real / Pow2(-e) as real
  }

  function ClampUnit(x: real): (r: real)
    ensures -1.0 <= r <= 1.0
  {
    if x < -1.0 then -1.0 else if x > 1.0 then 1.0 else x
  }

  predicate FiniteAt(data: seq<Byte>, i: nat)
    requires 4 * i + 4 <= |data|
  {
    Float32(U32(data, 4 * i)).Some?
  }

  predicate FiniteWords(data: seq<Byte>) { forall i :: 0 <= i < |data| / 4 ==> FiniteAt(data, i) }

  function Floats(data: seq<Byte>): seq<real>
    requires FiniteWords(data)
  {
    seq(|data| / 4, i requires 0 <= i < |data| / 4 => assert FiniteAt(data, i); ClampUnit(Float32(U32(data, 4 * i)).value))
  }

  function Interpret(f: Found): Result<Audio> {
    if Searching(f) then Err("missing fmt or data")
    else
      var w := f.format.value;
      if w.channels != 1 || w.rate != 24000 then Err("must be mono 24000 Hz")
      else if w.tag == 1 && w.bits == 16 then
        (if |f.data| % 2 != 0 then Err("partial PCM16 sample") else Ok(Fractions(f.data)))
      else if w.tag == 3 && w.bits == 32 then
        (if |f.data| % 4 != 0 then Err("partial float32 sample")
         else if !FiniteWords(f.data) then Err("non-finite sample")
         else Ok(Floats(f.data)))
      else Err("must use PCM16 or float32")
  }

  function Read(file: seq<Byte>): Result<Audio> {
    if |file| < 12 || file[..4] != RIFF || file[8..12] != WAVE then Err("not a RIFF/WAVE file")
    else
      var r := Scan(file[12..], Found(None, []));
      if r.Err? then Err(r.error) else Interpret(r.value)
  }

  method ReadMono24kWav(file: seq<Byte>) returns (r: Result<Audio>)
    ensures r == Read(file)
  {
    if |file| < 12 || file[..4] != RIFF || file[8..12] != WAVE {
      return Err("not a RIFF/WAVE file");
    }
    var scanned := ScanChunks(file[12..]);
    if scanned.Err? {
      return Err(scanned.error);
    }
    var found := scanned.value;
    if Searching(found) {
      return Err("missing fmt or data");
    }
    var w := found.format.value;
    if w.channels != 1 || w.rate != 24000 {
      return Err("must be mono 24000 Hz");
    }
    if w.tag == 1 && w.bits == 16 {
      if |found.data| % 2 != 0 {
        return Err("partial PCM16 sample");
      }
      var values := DecodeSamples(found.data);
      return Ok(values);
    }
    if w.tag == 3 && w.bits == 32 {
      if |found.data| % 4 != 0 {
        return Err("partial float32 sample");
      }
      r := DecodeFloats(found.data);
      return;
    }
    return Err("must use PCM16 or float32");
  }

  /** The chunk loop; `rest` is what the stream has left. */
  method ScanChunks(body: seq<Byte>) returns (r: Result<Found>)
    ensures r == Scan(body, Found(None, []))
  {
    var found, rest := Found(None, []), body;
    while rest != [] && Searching(found)
      invariant Scan(body, Found(None, [])) == Scan(rest, found)
      decreases |rest|
    {
      if |rest| < 8 {
        return Err("truncated chunk header");
      }
      var one := TakeChunk(rest, found);
      if one.Err? {
        return one;
      }
      found, rest := one.value, Skip(rest, 8 + Padded(U32(rest, 4)));
    }
    return Ok(found);
  }

  method DecodeSamples(data: seq<Byte>) returns (values: seq<real>)
    requires |data| % 2 == 0
    ensures values == Fractions(data)
  {
    values := [];
    var offset := 0;
    while offset < |data|
      invariant offset % 2 == 0 && offset <= |data| && |values| == offset / 2
      invariant forall i :: 0 <= i < |values| ==> values[i] == Fraction(SampleAt(data, i))
    {
      values := values + [Fraction(SampleOf(data[offset], data[offset + 1]))];
      offset := offset + 2;
    }
  }

  /** Refuses the first sample that is not finite, and clamps the others to full scale. */
  method DecodeFloats(data: seq<Byte>) returns (r: Result<seq<real>>)
    requires |data| % 4 == 0
    ensures r == if FiniteWords(data) then Ok(Floats(data)) else Err("non-finite sample")
  {
    var values: seq<real> := [];
    for i := 0 to |data| / 4
      invariant |values| == i
      invariant forall k :: 0 <= k < i ==>
        FiniteAt(data, k) && values[k] == ClampUnit(Float32(U32(data, 4 * k)).value)
    {
      var value := Float32(U32(data, 4 * i));
      if value.None? {
        assert !FiniteAt(data, i);
        return Err("non-finite sample");
      }
      values := values + [ClampUnit(value.value)];
    }
    assert FiniteWords(data);
    assert values == Floats(data);
    return Ok(values);
  }

  /** Whatever is read lies within full scale. */
  lemma WithinFullScale(file: seq<Byte>, i: nat)
    requires Read(file).Ok? && i < |Read(file).value|
    ensures -1.0 <= Read(file).value[i] <= 1.0
  {
  }

  // ----- ancillary chunks -----

  /** A chunk that is neither fmt nor data, padded to an even length. */
  datatype Ancillary = Ancillary(id: seq<Byte>, body: seq<Byte>)

  predicate WellFormed(a: Ancillary) { |a.id| == 4 && a.id != FMT && a.id != DATA && |a.body| <= GIB }

  function Padding(size: nat): seq<Byte> { if size % 2 == 0 then [] else [0] }

  function Encoded(a: Ancillary): seq<Byte>
    requires WellFormed(a)
  {
    Chunk8(a.id, |a.body|) + a.body + Padding(|a.body|)
  }

  function EncodedAll(list: seq<Ancillary>): seq<Byte>
    requires forall i :: 0 <= i < |list| ==> WellFormed(list[i])
  {
    if list == [] then [] else Encoded(list[0]) + EncodedAll(list[1..])
  }

  lemma ChunkHeader(id: seq<Byte>, size: nat, rest: seq<Byte>)
    requires |id| == 4 && size <= MAX32
    ensures var b := Chunk8(id, size) + rest; b[..4] == id && U32(b, 4) == size
  {
    Le32Reads(size);
    var b := Chunk8(id, size) + rest;
    assert b[4] == Le32(size)[0] && b[5] == Le32(size)[1] && b[6] == Le32(size)[2] && b[7] == Le32(size)[3];
  }

  /** The reader passes over an ancillary chunk. */
  lemma ScanSkips(a: Ancillary, rest: seq<Byte>, f: Found)
    requires WellFormed(a) && Searching(f)
    ensures Scan(Encoded(a) + rest, f) == Scan(rest, f)
  {
    var b := Encoded(a) + rest;
    var tail := a.body + Padding(|a.body|) + rest;
    assert b == Chunk8(a.id, |a.body|) + tail;
    ChunkHeader(a.id, |a.body|, tail);
    assert Skip(b, 8 + Padded(|a.body|)) == rest;
  }

  lemma {:induction false} ScanSkipsAll(list: seq<Ancillary>, rest: seq<Byte>, f: Found)
    requires (forall i :: 0 <= i < |list| ==> WellFormed(list[i])) && Searching(f)
    ensures Scan(EncodedAll(list) + rest, f) == Scan(rest, f)
  {
    if list == [] {
      assert EncodedAll(list) + rest == rest;
    } else {
      assert EncodedAll(list) + rest == Encoded(list[0]) + (EncodedAll(list[1..]) + rest);
      ScanSkips(list[0], EncodedAll(list[1..]) + rest, f);
      ScanSkipsAll(list[1..], rest, f);
    }
  }

  // ----- round trip -----

  lemma ScanFmt(l: Layout, rest: seq<Byte>, f: Found)
    requires Writable(l) && Searching(f)
    ensures Scan(Chunk8(FMT, 16) + FmtBody(l) + rest, f) ==
      Scan(rest, f.(format := Some(WaveFormat(1, l.channels, l.rate, l.bits))))
  {
    var b := Chunk8(FMT, 16) + FmtBody(l) + rest;
    assert b == Chunk8(FMT, 16) + (FmtBody(l) + rest);
    ChunkHeader(FMT, 16, FmtBody(l) + rest);
    assert b[8..24] == FmtBody(l) && Skip(b, 24) == rest;
    FmtFields(l);
  }

  lemma FmtFields(l: Layout)
    requires Writable(l)
    ensures FormatOf(FmtBody(l)) == WaveFormat(1, l.channels, l.rate, l.bits)
  {
    var b := FmtBody(l);
    assert b[0..2] == Le16(1) && b[2..4] == Le16(l.channels) && b[4..8] == Le32(l.rate) && b[14..16] == Le16(l.bits);
    Le16Reads(1);
    Le16Reads(l.channels);
    Le32Reads(l.rate);
    Le16Reads(l.bits);
    FieldAt(b, 0, Le16(1));
    FieldAt(b, 2, Le16(l.channels));
    WideFieldAt(b, 4, Le32(l.rate));
    FieldAt(b, 14, Le16(l.bits));
  }

  lemma FieldAt(b: seq<Byte>, at: nat, field: seq<Byte>)
    requires at + 2 <= |b| && b[at..at + 2] == field && |field| == 2
    ensures U16(b, at) == U16(field, 0)
  {
    assert b[at] == field[0] && b[at + 1] == field[1];
  }

  lemma WideFieldAt(b: seq<Byte>, at: nat, field: seq<Byte>)
    requires at + 4 <= |b| && b[at..at + 4] == field && |field| == 4
    ensures U32(b, at) == U32(field, 0)
  {
    assert b[at] == field[0] && b[at + 1] == field[1] && b[at + 2] == field[2] && b[at + 3] == field[3];
  }

  lemma ScanData(data: seq<Byte>, rest: seq<Byte>, f: Found)
    requires 0 < |data| <= GIB && f.format.Some? && f.data == []
    ensures Scan(Chunk8(DATA, |data|) + data + rest, f) == Ok(f.(data := data))
  {
    var b := Chunk8(DATA, |data|) + data + rest;
    assert b == Chunk8(DATA, |data|) + (data + rest);
    ChunkHeader(DATA, |data|, data + rest);
    assert b[8..8 + |data|] == data;
  }

  const MONO := Layout(24000, 1, 16)

  /** A written file with ancillary chunks before the format and before the data. */
  function Dressed(size: nat, first: seq<Ancillary>, second: seq<Ancillary>, data: seq<Byte>, rest: seq<Byte>): seq<Byte>
    requires forall i :: 0 <= i < |first| ==> WellFormed(first[i])
    requires forall i :: 0 <= i < |second| ==> WellFormed(second[i])
  {
    (RIFF + Le32(size) + WAVE) +
    (EncodedAll(first) + (Chunk8(FMT, 16) + FmtBody(MONO) + (EncodedAll(second) + (Chunk8(DATA, |data|) + data + rest))))
  }

  /** Any non-empty mono 24 kHz 16-bit payload up to one GiB reads back as its samples, with
      any well-formed ancillary chunks before the data and anything after it. */
  lemma DressedReads(size: nat, first: seq<Ancillary>, second: seq<Ancillary>, data: seq<Byte>, rest: seq<Byte>)
    requires forall i :: 0 <= i < |first| ==> WellFormed(first[i])
    requires forall i :: 0 <= i < |second| ==> WellFormed(second[i])
    requires 0 < |data| <= GIB && |data| % 2 == 0
    ensures Read(Dressed(size, first, second, data, rest)) == Ok(Fractions(data))
  {
    var c := Chunk8(DATA, |data|) + data + rest;
    var none := Found(None, []);
    DressedParts(size, first, second, data, rest);
    ScanSkipsAll(first, Chunk8(FMT, 16) + FmtBody(MONO) + (EncodedAll(second) + c), none);
    ScanFmt(MONO, EncodedAll(second) + c, none);
    var named := none.(format := Some(WaveFormat(1, 1, 24000, 16)));
    ScanSkipsAll(second, c, named);
    ScanData(data, rest, named);
    ReadFrom(Dressed(size, first, second, data, rest), named.(data := data));
  }

  lemma DressedParts(size: nat, first: seq<Ancillary>, second: seq<Ancillary>, data: seq<Byte>, rest: seq<Byte>)
    requires forall i :: 0 <= i < |first| ==> WellFormed(first[i])
    requires forall i :: 0 <= i < |second| ==> WellFormed(second[i])
    ensures var file := Dressed(size, first, second, data, rest);
      && |file| >= 12 && file[..4] == RIFF && file[8..12] == WAVE
      && file[12..] == EncodedAll(first) +
           (Chunk8(FMT, 16) + FmtBody(MONO) + (EncodedAll(second) + (Chunk8(DATA, |data|) + data + rest)))
  {
    var top := RIFF + Le32(size) + WAVE;
    assert top[..4] == RIFF && top[8..12] == WAVE;
  }

  lemma ReadFrom(file: seq<Byte>, f: Found)
    requires |file| >= 12 && file[..4] == RIFF && file[8..12] == WAVE && Scan(file[12..], Found(None, [])) == Ok(f)
    ensures Read(file) == Interpret(f)
  {
  }

  function Joined(writes: seq<seq<Byte>>): seq<Byte> {
    if writes == [] then [] else Joined(writes[..|writes| - 1]) + writes[|writes| - 1]
  }

  lemma JoinedNext(writes: seq<seq<Byte>>, i: nat)
    requires i < |writes|
    ensures Joined(writes[..i + 1]) == Joined(writes[..i]) + writes[i]
  {
    assert writes[..i + 1][..i] == writes[..i];
  }

  /** Writes every part, in order. */
  method WriteAll(writes: seq<seq<Byte>>) returns (writer: WavWriter)
    requires |Joined(writes)| <= GIB && forall i :: 0 <= i < |writes| ==> |writes[i]| % 2 == 0
    ensures fresh(writer) && writer.Valid() && !writer.closed && writer.layout == MONO
    ensures writer.file[44..] == Joined(writes) && |Joined(writes)| % 2 == 0
  {
    writer := new WavWriter(MONO);
    var i := 0;
    assert Joined(writes[..0]) == [];
    while i < |writes|
      invariant i <= |writes| && writer.Valid() && !writer.closed && writer.layout == MONO && fresh(writer)
      invariant writer.file[44..] == Joined(writes[..i]) && |Joined(writes[..i])| % 2 == 0
    {
      JoinedNext(writes, i);
      JoinedPrefix(writes, i + 1);
      ghost var before := writer.file;
      var ok := writer.WritePcm(writes[i]);
      assert ok;
      assert writer.file[44..] == before[44..] + writes[i];
      i := i + 1;
    }
    assert writes[..i] == writes;
  }

  /** For any split into frame-aligned writes, the closed file reads back as the samples. */
  method WriteAndRead(writes: seq<seq<Byte>>) returns (r: Result<Audio>)
    requires 0 < |Joined(writes)| <= GIB && forall i :: 0 <= i < |writes| ==> |writes[i]| % 2 == 0
    ensures |Joined(writes)| % 2 == 0 && r == Ok(Fractions(Joined(writes)))
  {
    var writer := WriteAll(writes);
    ghost var data := Joined(writes);
    writer.Close();
    PlainReads(data);
    r := ReadMono24kWav(writer.file);
  }

  lemma PlainReads(data: seq<Byte>)
    requires 0 < |data| <= GIB && |data| % 2 == 0
    ensures Read(Header(MONO, |data|) + data) == Ok(Fractions(data))
  {
    PlainIsDressed(data);
    DressedReads(RIFF_SIZE_WITHOUT_DATA + |data|, [], [], data, []);
  }

  /** A file as the writer closes it has no ancillary chunks. */
  lemma PlainIsDressed(data: seq<Byte>)
    ensures Header(MONO, |data|) + data == Dressed(RIFF_SIZE_WITHOUT_DATA + |data|, [], [], data, [])
  {
    var top := RIFF + Le32(RIFF_SIZE_WITHOUT_DATA + |data|) + WAVE;
    var fmt, body := Chunk8(FMT, 16), FmtBody(MONO);
    Regroup(top, fmt, body, Chunk8(DATA, |data|), data);
    assert EncodedAll([]) == [];
  }

  lemma Regroup(top: seq<Byte>, fmt: seq<Byte>, body: seq<Byte>, head: seq<Byte>, data: seq<Byte>)
    ensures (top + fmt + body + head) + data == top + ([] + (fmt + body + ([] + (head + data + []))))
  {
    assert [] + (head + data + []) == head + data;
    assert top + ([] + (fmt + body + (head + data))) == top + (fmt + body + (head + data));
  }

  lemma {:induction false} JoinedPrefix(writes: seq<seq<Byte>>, i: nat)
    requires i <= |writes|
    ensures |Joined(writes[..i])| <= |Joined(writes)|
    decreases |writes| - i
  {
    if i == |writes| {
      assert writes[..i] == writes;
    } else {
      assert writes[..i + 1][..i] == writes[..i];
      JoinedPrefix(writes, i + 1);
    }
  }

  // ----- back to 16 bits -----

  datatype Sample = Real(value: real) | NotFinite

  /** Nearest integer, ties to even. */
  function RoundEven(x: real): int {
    var f := x.Floor;
    var d := x - f as real;
    if d < 0.5 || (d == 0.5 && f % 2 == 0) then f else f + 1
  }

  function ToInt16(s: Sample): (r: int)
    ensures -32768 <= r <= 32767
  {
    var v := if s.Real? then s.value else 0.0;
    if v <= -1.0 then -32768 else if v >= 1.0 then 32767 else Clamp(RoundEven(v * 32768.0))
  }

  function S16le(samples: seq<Sample>): (r: seq<Byte>)
    ensures |r| == 2 * |samples|
  {
    seq(2 * |samples|, i requires 0 <= i < 2 * |samples| =>
      if i % 2 == 0 then LowByte(ToInt16(samples[i / 2])) else HighByte(ToInt16(samples[i / 2])))
  }

  method FloatPcmToS16le(samples: seq<Sample>) returns (output: array<Byte>)
    ensures output[..] == S16le(samples)
  {
    output := new Byte[2 * |samples|](i => 0);
    for index := 0 to |samples|
      invariant forall i :: 0 <= i < 2 * index ==> output[i] == S16le(samples)[i]
    {
      var integer := ToInt16(samples[index]);
      output[2 * index] := LowByte(integer);
      output[2 * index + 1] := HighByte(integer);
    }
  }

  lemma FractionBack(v: int)
    requires -32768 <= v <= 32767
    ensures ToInt16(Real(Fraction(v))) == v
  {
    assert Fraction(v) * 32768.0 == v as real;
    assert (v as real).Floor == v;
  }

  /** Converting decoded samples back is the identity on every byte. */
  lemma DecodedSamplesBack(data: seq<Byte>)
    requires |data| % 2 == 0
    ensures S16le(seq(|data| / 2, i requires 0 <= i < |data| / 2 => Real(Fractions(data)[i]))) == data
  {
    var samples := seq(|data| / 2, i requires 0 <= i < |data| / 2 => Real(Fractions(data)[i]));
    forall i | 0 <= i < |data| ensures S16le(samples)[i] == data[i] {
      var j := i / 2;
      FractionBack(SampleAt(data, j));
      BytesSample(data[2 * j], data[2 * j + 1]);
      assert i == 2 * j || i == 2 * j + 1;
      assert Fractions(data)[j] == Fraction(SampleAt(data, j));
      assert samples[i / 2] == Real(Fraction(SampleAt(data, j)));
    }
  }
}
