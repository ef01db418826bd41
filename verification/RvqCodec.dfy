/** The 11-bit code stream of a prepared voice reference: codes packed least
    significant bit first into bytes. Seen as numbers, packing rewrites the base-2048
    digits of a number as its base-256 digits. */
module RvqCodec {
  import opened Basics
  import opened Bits

  const CODE_BITS: nat := 11

  predicate IsCode(c: int) { 0 <= c < 2048 }

  predicate IsByte(b: int) { 0 <= b < 256 }

  function PackedSize(count: nat): nat { (CODE_BITS * count + 7) / 8 }

  function Pack(codes: seq<nat>): seq<nat> {
    Digits(8, PackedSize(|codes|), Value(11, codes))
  }

  function Unpack(bytes: seq<nat>, count: nat): seq<nat> {
    Digits(11, count, Value(8, bytes))
  }

  lemma Widths()
    ensures Pow2(8) == 256 && Pow2(11) == 2048
  {
    assert Pow2(4) == 16;
    Pow2Add(4, 4);
    assert Pow2(3) == 8;
    Pow2Add(8, 3);
  }

  // ----- round trips -----

  lemma PackedValue(codes: seq<nat>)
    requires AreDigits(11, codes)
    ensures Value(8, Pack(codes)) == Value(11, codes)
  {
    var size := PackedSize(|codes|);
    ValueOfDigits(8, size, Value(11, codes));
    ValueBound(11, codes);
    Pow2Increases(11 * |codes|, 8 * size);
    SmallMod(Value(11, codes), Pow2(8 * size));
  }

  lemma SmallMod(v: nat, p: nat)
    requires v < p
    ensures v % p == v
  {
    Division(v, p);
    QuotientUnique(p, v, 0, v, v / p, v % p);
  }

  /** Unpacking undoes packing, for every sequence of 11-bit codes. */
  lemma UnpackPack(codes: seq<nat>)
    requires forall i :: 0 <= i < |codes| ==> IsCode(codes[i])
    ensures Unpack(Pack(codes), |codes|) == codes
  {
    Widths();
    PackedValue(codes);
    DigitsOfValue(11, codes);
  }

  /** The bits of the last byte above the last code are zero. */
  predicate PaddingIsZero(bytes: seq<nat>, count: nat)
    requires |bytes| == PackedSize(count)
  {
    bytes == [] || bytes[|bytes| - 1] < Pow2(CODE_BITS * count - 8 * (|bytes| - 1))
  }

  lemma TopDigit(p: nat, k: nat, low: nat, last: nat)
    requires low < p
    ensures last < k <==> low + last * p < p * k
  {
    if last < k {
      MulLe(p, last + 1, k);
      MulAdd(p, last, 1);
    } else {
      MulLe(p, k, last);
    }
  }

  lemma PaddingBound(bytes: seq<nat>, count: nat)
    requires |bytes| == PackedSize(count) && AreDigits(8, bytes)
    ensures PaddingIsZero(bytes, count) <==> Value(8, bytes) < Pow2(11 * count)
  {
    if bytes != [] {
      var init, last := bytes[..|bytes| - 1], bytes[|bytes| - 1];
      var low := 8 * |init|;
      assert bytes == init + [last];
      ValueAppend(8, init, last);
      ValueBound(8, init);
      Pow2Add(low, 11 * count - low);
      TopDigit(Pow2(low), Pow2(11 * count - low), Value(8, init), last);
    }
  }

  /** Packing undoes unpacking exactly when the padding bits are zero. */
  lemma PackUnpack(bytes: seq<nat>, count: nat)
    requires |bytes| == PackedSize(count)
    requires forall i :: 0 <= i < |bytes| ==> IsByte(bytes[i])
    ensures Pack(Unpack(bytes, count)) == bytes <==> PaddingIsZero(bytes, count)
  {
    Widths();
    var v, codes := Value(8, bytes), Unpack(bytes, count);
    ValueOfDigits(11, count, v);
    DigitsBounded(11, count, v);
    Division(v, Pow2(11 * count));
    PaddingBound(bytes, count);
    PackedValue(codes);
    if v < Pow2(11 * count) {
      SmallMod(v, Pow2(11 * count));
      DigitsOfValue(8, bytes);
    }
  }

  lemma {:induction false} DigitsBounded(w: nat, n: nat, v: nat)
    ensures AreDigits(w, Digits(w, n, v))
  {
    if n > 0 {
      Division(v, Pow2(w));
      DigitsBounded(w, n - 1, v / Pow2(w));
    }
  }

  // ----- the loops -----

  /** Sum of products in the packing step: a code enters above the bits in use. */
  lemma EnterCode(acc: nat, code: nat, bits: nat, shift: nat)
    ensures Shift(acc + Shift(code, bits), shift) == Shift(acc, shift) + code * Pow2(bits + shift)
  {
    ShiftIs(code, bits);
    ShiftIs(acc, shift);
    ShiftIs(acc + Shift(code, bits), shift);
    Pow2Add(bits, shift);
    Distribute(acc, code, Pow2(bits), Pow2(shift));
  }

  lemma Distribute(a: nat, c: nat, p: nat, q: nat)
    ensures (a + c * p) * q == a * q + c * (p * q)
  {
    MulAdd(q, a, c * p);
    MulAssoc(c, p, q);
  }

  lemma EnterBound(acc: nat, code: nat, bits: nat, width: nat)
    requires acc < Pow2(bits) && code < Pow2(width)
    ensures acc + Shift(code, bits) < Pow2(bits + width)
  {
    ShiftIs(code, bits);
    Pow2Add(bits, width);
    MulLe(Pow2(bits), code + 1, Pow2(width));
    MulAdd(Pow2(bits), code, 1);
  }

  /** Moving the low `w` bits of the accumulator out keeps its weighted value. */
  lemma LeaveDigit(acc: nat, w: nat, shift: nat, d: nat, rest: nat)
    requires acc == Pow2(w) * rest + d
    ensures Shift(acc, shift) == d * Pow2(shift) + Shift(rest, shift + w)
  {
    ShiftIs(acc, shift);
    ShiftIs(rest, shift + w);
    Pow2Add(w, shift);
    Distribute(d, rest, Pow2(w), Pow2(shift));
  }

  lemma LeaveBound(acc: nat, w: nat, bits: nat, d: nat, rest: nat)
    requires acc == Pow2(w) * rest + d && acc < Pow2(w + bits)
    ensures rest < Pow2(bits)
  {
    Pow2Add(w, bits);
    if rest >= Pow2(bits) {
      MulLe(Pow2(w), Pow2(bits), rest);
    }
  }

  /** Output written so far plus the accumulator above it make up the codes read so far. */
  ghost predicate Packed(codes: seq<nat>, output: seq<nat>, accumulator: nat, bits: nat) {
    && 8 * |output| + bits == 11 * |codes|
    && accumulator < Pow2(bits)
    && AreDigits(8, output)
    && Value(8, output) + Shift(accumulator, 8 * |output|) == Value(11, codes)
  }

  lemma PackEnter(codes: seq<nat>, output: seq<nat>, accumulator: nat, bits: nat, code: nat)
    requires Packed(codes, output, accumulator, bits) && IsCode(code)
    ensures Packed(codes + [code], output, Or(accumulator, Shift(code, bits)), bits + 11)
  {
    Widths();
    EnterBound(accumulator, code, bits, 11);
    ShiftIs(code, bits);
    OrShifted(accumulator, code, bits);
    PackValue(codes, output, accumulator, bits, code);
  }

  lemma PackValue(codes: seq<nat>, output: seq<nat>, accumulator: nat, bits: nat, code: nat)
    requires Packed(codes, output, accumulator, bits)
    ensures Value(8, output) + Shift(accumulator + Shift(code, bits), 8 * |output|) == Value(11, codes + [code])
  {
    EnterCode(accumulator, code, bits, 8 * |output|);
    ValueAppend(11, codes, code);
  }

  lemma PackLeave(codes: seq<nat>, output: seq<nat>, accumulator: nat, bits: nat)
    requires Packed(codes, output, accumulator, bits) && bits >= 8
    ensures Packed(codes, output + [accumulator % 256], accumulator / 256, bits - 8)
  {
    Widths();
    LeaveDigit(accumulator, 8, 8 * |output|, accumulator % 256, accumulator / 256);
    LeaveBound(accumulator, 8, bits - 8, accumulator % 256, accumulator / 256);
    ValueAppend(8, output, accumulator % 256);
  }

  lemma PackRest(codes: seq<nat>, output: seq<nat>, accumulator: nat, bits: nat)
    requires Packed(codes, output, accumulator, bits) && bits < 8
    ensures bits == 0 ==> output == Pack(codes)
    ensures bits > 0 ==> output + [accumulator % 256] == Pack(codes)
  {
    Widths();
    ShiftIs(accumulator, 8 * |output|);
    if bits == 0 {
      DigitsOfValue(8, output);
    } else {
      PackLast(codes, output, accumulator, bits);
    }
  }

  lemma PackLast(codes: seq<nat>, output: seq<nat>, accumulator: nat, bits: nat)
    requires Packed(codes, output, accumulator, bits) && 0 < bits < 8
    ensures accumulator < 256 && output + [accumulator] == Pack(codes)
  {
    Widths();
    Pow2Increases(bits, 8);
    ShiftIs(accumulator, 8 * |output|);
    ValueAppend(8, output, accumulator);
    assert Value(8, output + [accumulator]) == Value(11, codes);
    assert AreDigits(8, output + [accumulator]);
    DigitsOfValue(8, output + [accumulator]);
    assert PackedSize(|codes|) == |output| + 1;
  }

  /** The inner loop: writes out every complete byte of the accumulator. */
  method EmitBytes(ghost codes: seq<nat>, output: array<nat>, index: nat, acc: nat, n: nat)
    returns (outputIndex: nat, accumulator: nat, bits: nat)
    requires index <= output.Length && Packed(codes, output[..index], acc, n)
    requires 11 * |codes| <= 8 * output.Length
    modifies output
    ensures outputIndex <= output.Length && bits < 8
    ensures Packed(codes, output[..outputIndex], accumulator, bits)
  {
    outputIndex, accumulator, bits := index, acc, n;
    while bits >= 8
      invariant outputIndex <= output.Length
      invariant Packed(codes, output[..outputIndex], accumulator, bits)
    {
      PackLeave(codes, output[..outputIndex], accumulator, bits);
      output[outputIndex] := accumulator % 256;
      assert output[..outputIndex + 1] == output[..outputIndex] + [accumulator % 256];
      outputIndex := outputIndex + 1;
      accumulator := accumulator / 256;
      bits := bits - 8;
    }
  }

  /** The bits left over go into one more byte. */
  method EmitLast(ghost codes: seq<nat>, output: array<nat>, index: nat, accumulator: nat, bits: nat)
    requires index <= output.Length && bits < 8 && Packed(codes, output[..index], accumulator, bits)
    requires output.Length == PackedSize(|codes|)
    modifies output
    ensures output[..] == Pack(codes)
  {
    PackRest(codes, output[..index], accumulator, bits);
    if bits > 0 {
      output[index] := accumulator % 256;
      assert output[..] == output[..index] + [accumulator % 256];
    } else {
      assert output[..] == output[..index];
    }
  }

  /** One code enters the accumulator, and the complete bytes leave it. */
  method PackOne(ghost codes: seq<nat>, code: nat, output: array<nat>, index: nat, acc: nat, n: nat)
    returns (outputIndex: nat, accumulator: nat, bits: nat)
    requires index <= output.Length && Packed(codes, output[..index], acc, n) && IsCode(code)
    requires 11 * (|codes| + 1) <= 8 * output.Length
    modifies output
    ensures outputIndex <= output.Length && bits < 8
    ensures Packed(codes + [code], output[..outputIndex], accumulator, bits)
  {
    PackEnter(codes, output[..index], acc, n, code);
    outputIndex, accumulator, bits :=
      EmitBytes(codes + [code], output, index, Or(acc, Shift(code, n)), n + CODE_BITS);
  }

  method PackCodes(codes: seq<int>) returns (r: Result<seq<nat>>)
    ensures r.Ok? <==> forall i :: 0 <= i < |codes| ==> IsCode(codes[i])
    ensures r.Ok? ==> r.value == Pack(codes)
  {
    var size := PackedSize(|codes|);
    var output := new nat[size](i => 0);
    var accumulator: nat, bits: nat, outputIndex: nat := 0, 0, 0;
    var i := 0;
    while i < |codes|
      invariant 0 <= i <= |codes| && 0 <= bits < 8
      invariant forall k :: 0 <= k < i ==> IsCode(codes[k])
      invariant outputIndex <= size && Packed(codes[..i], output[..outputIndex], accumulator, bits)
    {
      if codes[i] < 0 || codes[i] > 2047 {
        return Err("prepared voice RVQ code is outside the 11-bit range");
      }
      assert codes[..i + 1] == codes[..i] + [codes[i]];
      outputIndex, accumulator, bits := PackOne(codes[..i], codes[i], output, outputIndex, accumulator, bits);
      i := i + 1;
    }
    assert codes[..i] == codes;
    EmitLast(codes, output, outputIndex, accumulator, bits);
    r := Ok(output[..]);
  }

  lemma {:induction false} ValueConcat(w: nat, a: seq<nat>, b: seq<nat>)
    ensures Value(w, a + b) == Value(w, a) + Pow2(w * |a|) * Value(w, b)
  {
    if a == [] {
      assert a + b == b && w * |a| == 0;
    } else {
      var t := a[1..];
      assert (a + b)[1..] == t + b;
      ValueConcat(w, t, b);
      PowStep(w, |t|);
      MulAdd(Pow2(w), Value(w, t), Pow2(w * |t|) * Value(w, b));
      MulAssoc(Pow2(w), Pow2(w * |t|), Value(w, b));
    }
  }

  /** Only the low w * n bits of a number decide its lowest n digits. */
  lemma DigitsOfLow(w: nat, s: seq<nat>, v: nat, rest: nat)
    requires AreDigits(w, s) && v == Value(w, s) + Pow2(w * |s|) * rest
    ensures Digits(w, |s|, v) == s
  {
    ValueBound(w, s);
    ValueOfDigits(w, |s|, v);
    DivMod(Pow2(w * |s|), rest, Value(w, s));
    DigitsBounded(w, |s|, v);
    DigitsOfValue(w, Digits(w, |s|, v));
    DigitsOfValue(w, s);
  }

  /** Codes delivered so far plus the accumulator above them make up the bytes read so far. */
  ghost predicate Unpacked(input: seq<nat>, codes: seq<nat>, accumulator: nat, bits: nat) {
    && 8 * |input| == 11 * |codes| + bits
    && accumulator < Pow2(bits)
    && AreDigits(11, codes)
    && Value(8, input) == Value(11, codes) + Shift(accumulator, 11 * |codes|)
  }

  lemma UnpackEnter(input: seq<nat>, codes: seq<nat>, accumulator: nat, bits: nat, byte: nat)
    requires Unpacked(input, codes, accumulator, bits) && IsByte(byte)
    ensures Unpacked(input + [byte], codes, Or(accumulator, Shift(byte, bits)), bits + 8)
  {
    Widths();
    EnterBound(accumulator, byte, bits, 8);
    ShiftIs(byte, bits);
    OrShifted(accumulator, byte, bits);
    UnpackValue(input, codes, accumulator, bits, byte);
  }

  lemma UnpackValue(input: seq<nat>, codes: seq<nat>, accumulator: nat, bits: nat, byte: nat)
    requires Unpacked(input, codes, accumulator, bits)
    ensures Value(8, input + [byte]) == Value(11, codes) + Shift(accumulator + Shift(byte, bits), 11 * |codes|)
  {
    EnterCode(accumulator, byte, bits, 11 * |codes|);
    ValueAppend(8, input, byte);
  }

  lemma UnpackLeave(input: seq<nat>, codes: seq<nat>, accumulator: nat, bits: nat)
    requires Unpacked(input, codes, accumulator, bits) && bits >= 11
    ensures Unpacked(input, codes + [accumulator % 2048], accumulator / 2048, bits - 11)
  {
    Widths();
    LeaveDigit(accumulator, 11, 11 * |codes|, accumulator % 2048, accumulator / 2048);
    LeaveBound(accumulator, 11, bits - 11, accumulator % 2048, accumulator / 2048);
    ValueAppend(11, codes, accumulator % 2048);
  }

  lemma UnpackRest(input: seq<nat>, tail: seq<nat>, codes: seq<nat>, accumulator: nat, bits: nat)
    requires Unpacked(input, codes, accumulator, bits)
    ensures codes == Unpack(input + tail, |codes|)
  {
    var shift, high := 11 * |codes|, Value(8, tail);
    ShiftIs(accumulator, shift);
    ValueConcat(8, input, tail);
    Pow2Add(shift, bits);
    Above(Pow2(shift), accumulator, Pow2(bits), high);
    DigitsOfLow(11, codes, Value(8, input + tail), accumulator + Pow2(bits) * high);
  }

  lemma Above(p: nat, a: nat, q: nat, v: nat)
    ensures a * p + (p * q) * v == p * (a + q * v)
  {
    MulAssoc(p, q, v);
    MulAdd(p, a, q * v);
  }

  /** The inner loop: reads bytes until a whole code is in the accumulator, or none is left. */
  method FillBits(bytes: seq<nat>, ghost codes: seq<nat>, index: nat, acc: nat, n: nat)
    returns (inputIndex: nat, accumulator: nat, bits: nat)
    requires forall i :: 0 <= i < |bytes| ==> IsByte(bytes[i])
    requires index <= |bytes| && n < 11 && Unpacked(bytes[..index], codes, acc, n)
    ensures inputIndex <= |bytes| && Unpacked(bytes[..inputIndex], codes, accumulator, bits)
    ensures bits < 22 && (bits < CODE_BITS ==> inputIndex == |bytes|)
  {
    inputIndex, accumulator, bits := index, acc, n;
    while bits < CODE_BITS && inputIndex < |bytes|
      invariant inputIndex <= |bytes| && bits < 19
      invariant Unpacked(bytes[..inputIndex], codes, accumulator, bits)
      decreases 19 - bits
    {
      UnpackEnter(bytes[..inputIndex], codes, accumulator, bits, bytes[inputIndex]);
      assert bytes[..inputIndex + 1] == bytes[..inputIndex] + [bytes[inputIndex]];
      accumulator := Or(accumulator, Shift(bytes[inputIndex], bits));
      inputIndex := inputIndex + 1;
      bits := bits + 8;
    }
  }

  method UnpackCodes(bytes: seq<nat>, count: nat) returns (r: Result<seq<nat>>)
    requires forall i :: 0 <= i < |bytes| ==> IsByte(bytes[i])
    ensures r.Ok? <==> CODE_BITS * count <= 8 * |bytes|
    ensures r.Ok? ==> r.value == Unpack(bytes, count)
  {
    var codes: seq<nat> := [];
    var accumulator: nat, bits: nat, inputIndex: nat := 0, 0, 0;
    while |codes| < count
      invariant |codes| <= count && 0 <= bits < 11 && inputIndex <= |bytes|
      invariant Unpacked(bytes[..inputIndex], codes, accumulator, bits)
    {
      inputIndex, accumulator, bits := FillBits(bytes, codes, inputIndex, accumulator, bits);
      if bits < CODE_BITS {
        return Err("prepared voice RVQ stream is truncated");
      }
      UnpackLeave(bytes[..inputIndex], codes, accumulator, bits);
      codes := codes + [accumulator % 2048];
      accumulator := accumulator / 2048;
      bits := bits - CODE_BITS;
    }
    assert bytes == bytes[..inputIndex] + bytes[inputIndex..];
    UnpackRest(bytes[..inputIndex], bytes[inputIndex..], codes, accumulator, bits);
    r := Ok(codes);
  }
}
