/** UTF-8 as section 4 of RFC 3629 defines it, and the two scanners of the client: the
    validator and the counter of bytes that do not belong to white space. */
module Utf8 {
  import opened Basics

  // ----- the reference: encoding scalar values -----

  predicate IsScalar(cp: int) { 0 <= cp < 0xD800 || 0xE000 <= cp <= 0x10FFFF }

  predicate AllScalars(s: seq<int>) { forall i :: 0 <= i < |s| ==> IsScalar(s[i]) }

  function Encode(cp: int): seq<Byte>
    requires IsScalar(cp)
  {
    if cp < 0x80 then [cp]
    else if cp < 0x800 then [0xC0 + cp / 64, 0x80 + cp % 64]
    else if cp < 0x10000 then [0xE0 + cp / 4096, 0x80 + cp / 64 % 64, 0x80 + cp % 64]
    else [0xF0 + cp / 262144, 0x80 + cp / 4096 % 64, 0x80 + cp / 64 % 64, 0x80 + cp % 64]
  }

  function EncodeAll(s: seq<int>): seq<Byte>
    requires AllScalars(s)
  {
    if s == [] then [] else Encode(s[0]) + EncodeAll(s[1..])
  }

  // ----- decoding -----

  /** The length a lead byte announces, zero for a byte that cannot lead. */
  function Width(lead: Byte): nat {
    if lead <= 0x7F then 1
    else if 0xC2 <= lead <= 0xDF then 2
    else if 0xE0 <= lead <= 0xEF then 3
    else if 0xF0 <= lead <= 0xF4 then 4
    else 0
  }

  function LeadBits(lead: Byte): nat {
    match Width(lead)
    case 2 => lead % 32
    case 3 => lead % 16
    case 4 => lead % 8
    case _ => lead
  }

  predicate IsContinuation(b: Byte) { 0x80 <= b < 0xC0 }

  /** Shifts six bits in per byte. */
  function Fold(cp: nat, bytes: seq<Byte>): nat
    decreases |bytes|
  {
    if bytes == [] then cp else Fold(cp * 64 + bytes[0] % 64, bytes[1..])
  }

  datatype Unit = Unit(cp: nat, width: nat)

  predicate AllContinuations(bytes: seq<Byte>) {
    forall i :: 0 <= i < |bytes| ==> IsContinuation(bytes[i])
  }

  /** The first code point by its bit pattern alone. */
  function Lenient(b: seq<Byte>): (u: Option<Unit>)
    ensures u.Some? ==> 1 <= u.value.width <= 4 && u.value.width <= |b| && u.value.width == Width(b[0])
  {
    if b == [] then None
    else
      var w := Width(b[0]);
      if w == 0 || w > |b| || !AllContinuations(b[1..w]) then None
      else Some(Unit(Fold(LeadBits(b[0]), b[1..w]), w))
  }

  /** No overlong form, no surrogate, nothing above the last code point. */
  predicate WellFormed(u: Unit) {
    (u.width == 3 ==> u.cp >= 0x800) && (u.width == 4 ==> u.cp >= 0x10000) && IsScalar(u.cp)
  }

  function First(b: seq<Byte>): (u: Option<Unit>)
    ensures u.Some? ==> u == Lenient(b) && WellFormed(u.value)
  {
    var u := Lenient(b);
    if u.Some? && WellFormed(u.value) then u else None
  }

  function Decode(b: seq<Byte>): (r: Option<seq<int>>)
    ensures r.Some? ==> AllScalars(r.value)
    decreases |b|
  {
    if b == [] then Some([])
    else
      var u := First(b);
      if u.None? then None
      else
        var rest := Decode(b[u.value.width..]);
        if rest.None? then None else Some([u.value.cp] + rest.value)
  }

  lemma FoldOne(cp: nat, a: Byte)
    ensures Fold(cp, [a]) == cp * 64 + a % 64
  {
    assert [a][1..] == [];
  }

  lemma FoldTwo(cp: nat, a: Byte, b: Byte)
    ensures Fold(cp, [a, b]) == (cp * 64 + a % 64) * 64 + b % 64
  {
    assert [a, b][1..] == [b];
    FoldOne(cp * 64 + a % 64, b);
  }

  lemma FoldThree(cp: nat, a: Byte, b: Byte, c: Byte)
    ensures Fold(cp, [a, b, c]) == ((cp * 64 + a % 64) * 64 + b % 64) * 64 + c % 64
  {
    assert [a, b, c][1..] == [b, c];
    FoldTwo(cp * 64 + a % 64, b, c);
  }

  /** What the parts of an encoding must satisfy to be read back. */
  predicate ReadsBack(b: seq<Byte>, cp: int)
    requires b != []
  {
    Width(b[0]) == |b| && AllContinuations(b[1..]) && Fold(LeadBits(b[0]), b[1..]) == cp
  }

  lemma LowSix(x: nat)
    ensures (0x80 + x % 64) % 64 == x % 64
  {
  }

  lemma TwoReadBack(cp: int)
    requires 0x80 <= cp < 0x800
    ensures ReadsBack(Encode(cp), cp)
  {
    var b := Encode(cp);
    assert b[1..] == [b[1]];
    FoldOne(LeadBits(b[0]), b[1]);
  }

  lemma ThreeReadBack(cp: int)
    requires 0x800 <= cp < 0x10000 && IsScalar(cp)
    ensures ReadsBack(Encode(cp), cp)
  {
    var b := Encode(cp);
    assert b[1..] == [b[1], b[2]];
    FoldTwo(LeadBits(b[0]), b[1], b[2]);
    ThreeDigits(cp);
    assert LeadBits(b[0]) == cp / 4096;
  }

  lemma FourLead(cp: int)
    requires 0x10000 <= cp <= 0x10FFFF
    ensures Width(0xF0 + cp / 262144) == 4 && LeadBits(0xF0 + cp / 262144) == cp / 262144
  {
  }

  lemma FourReadBack(cp: int)
    requires 0x10000 <= cp <= 0x10FFFF
    ensures ReadsBack(Encode(cp), cp)
  {
    var b := Encode(cp);
    assert b[1..] == [b[1], b[2], b[3]];
    FoldThree(LeadBits(b[0]), b[1], b[2], b[3]);
    FourLead(cp);
    FourDigits(cp);
    LowSix(cp / 4096);
    LowSix(cp / 64);
    LowSix(cp);
  }

  /** The bits of the encoding put together again. */
  lemma EncodedBits(cp: int)
    requires IsScalar(cp)
    ensures ReadsBack(Encode(cp), cp) && WellFormed(Unit(cp, |Encode(cp)|))
  {
    if cp < 0x80 {
      assert Encode(cp)[1..] == [];
    } else if cp < 0x800 {
      TwoReadBack(cp);
    } else if cp < 0x10000 {
      ThreeReadBack(cp);
    } else {
      FourReadBack(cp);
    }
  }

  lemma ThreeDigits(cp: nat)
    ensures (cp / 4096 * 64 + cp / 64 % 64) * 64 + cp % 64 == cp
  {
    assert cp / 64 / 64 == cp / 4096;
  }

  lemma FourDigits(cp: nat)
    ensures ((cp / 262144 * 64 + cp / 4096 % 64) * 64 + cp / 64 % 64) * 64 + cp % 64 == cp
  {
    assert cp / 4096 / 64 == cp / 262144;
    ThreeDigits(cp);
  }

  /** Decoding one encoded scalar gives it back, whatever follows. */
  lemma FirstOfEncode(cp: int, rest: seq<Byte>)
    requires IsScalar(cp)
    ensures First(Encode(cp) + rest) == Some(Unit(cp, |Encode(cp)|))
  {
    var b := Encode(cp) + rest;
    EncodedBits(cp);
    assert b[0] == Encode(cp)[0] && b[1..|Encode(cp)|] == Encode(cp)[1..];
  }

  /** A decoded unit is the encoding of its scalar. */
  lemma EncodeOfFirst(b: seq<Byte>)
    requires First(b).Some?
    ensures Encode(First(b).value.cp) == b[..First(b).value.width]
  {
    var u := First(b).value;
    var tail := b[1..u.width];
    assert b[..u.width] == [b[0]] + tail;
    if u.width == 1 {
      assert tail == [];
    } else if u.width == 2 {
      assert tail == [tail[0]];
      FoldOne(LeadBits(b[0]), tail[0]);
      TwoBytes(b[0], tail[0], u.cp);
    } else if u.width == 3 {
      assert tail == [tail[0], tail[1]];
      FoldTwo(LeadBits(b[0]), tail[0], tail[1]);
      ThreeBytes(b[0], tail[0], tail[1], u.cp);
    } else {
      assert tail == [tail[0], tail[1], tail[2]];
      FoldThree(LeadBits(b[0]), tail[0], tail[1], tail[2]);
      FourBytes(b[0], tail[0], tail[1], tail[2], u.cp);
    }
  }

  lemma TwoBytes(a: Byte, b: Byte, cp: nat)
    requires Width(a) == 2 && IsContinuation(b) && cp == LeadBits(a) * 64 + b % 64
    ensures IsScalar(cp) && Encode(cp) == [a, b]
  {
  }

  lemma ThreeBytes(a: Byte, b: Byte, c: Byte, cp: nat)
    requires Width(a) == 3 && IsContinuation(b) && IsContinuation(c)
    requires cp == (LeadBits(a) * 64 + b % 64) * 64 + c % 64 && cp >= 0x800 && IsScalar(cp)
    ensures Encode(cp) == [a, b, c]
  {
    assert cp / 64 == LeadBits(a) * 64 + b % 64;
    assert cp / 4096 == LeadBits(a);
  }

  lemma Continuation(b: Byte)
    requires IsContinuation(b)
    ensures b == 0x80 + b % 64
  {
  }

  lemma Sextets(a: nat, b: nat, c: nat, d: nat)
    requires b < 64 && c < 64 && d < 64
    ensures var cp := ((a * 64 + b) * 64 + c) * 64 + d;
      cp / 262144 == a && cp / 4096 % 64 == b && cp / 64 % 64 == c && cp % 64 == d
  {
    var x := a * 64 + b;
    var y := x * 64 + c;
    var cp := y * 64 + d;
    LastSextet(y, d);
    LastSextet(x, c);
    LastSextet(a, b);
    assert cp / 4096 == cp / 64 / 64 && cp / 262144 == cp / 4096 / 64;
  }

  lemma LastSextet(high: nat, low: nat)
    requires low < 64
    ensures (high * 64 + low) / 64 == high && (high * 64 + low) % 64 == low
  {
  }

  lemma FourBytes(a: Byte, b: Byte, c: Byte, d: Byte, cp: nat)
    requires Width(a) == 4 && IsContinuation(b) && IsContinuation(c) && IsContinuation(d)
    requires cp == ((LeadBits(a) * 64 + b % 64) * 64 + c % 64) * 64 + d % 64 && cp >= 0x10000 && IsScalar(cp)
    ensures Encode(cp) == [a, b, c, d]
  {
    Sextets(LeadBits(a), b % 64, c % 64, d % 64);
    Continuation(b);
    Continuation(c);
    Continuation(d);
    assert a == 0xF0 + LeadBits(a);
  }

  /** Decoding undoes encoding. */
  lemma {:induction false} DecodeEncode(s: seq<int>)
    requires AllScalars(s)
    ensures Decode(EncodeAll(s)) == Some(s)
  {
    if s != [] {
      var rest := EncodeAll(s[1..]);
      FirstOfEncode(s[0], rest);
      DecodeEncode(s[1..]);
      DecodeJoins(Encode(s[0]), rest, s[0], s[1..]);
      assert [s[0]] + s[1..] == s;
    }
  }

  lemma DecodeJoins(head: seq<Byte>, rest: seq<Byte>, cp: nat, cps: seq<int>)
    requires head != [] && First(head + rest) == Some(Unit(cp, |head|)) && Decode(rest) == Some(cps)
    ensures Decode(head + rest) == Some([cp] + cps)
  {
    assert (head + rest)[|head|..] == rest;
  }

  lemma EncodeJoins(b: seq<Byte>, u: Unit, rest: seq<int>)
    requires First(b) == Some(u) && AllScalars(rest) && EncodeAll(rest) == b[u.width..]
    ensures AllScalars([u.cp] + rest) && EncodeAll([u.cp] + rest) == b
  {
    EncodeOfFirst(b);
    EncodeOne(u.cp, rest);
    Rejoin(b, u.width);
  }

  lemma Rejoin(b: seq<Byte>, w: nat)
    requires w <= |b|
    ensures b[..w] + b[w..] == b
  {
  }

  /** Encoding undoes decoding. */
  lemma {:induction false} EncodeDecode(b: seq<Byte>)
    requires Decode(b).Some?
    ensures EncodeAll(Decode(b).value) == b
    decreases |b|
  {
    if b != [] {
      var u := First(b).value;
      EncodeDecode(b[u.width..]);
      EncodeJoins(b, u, Decode(b[u.width..]).value);
    }
  }

  /** Exactly the encodings of scalar sequences decode. */
  lemma ValidIffEncoded(b: seq<Byte>)
    ensures Decode(b).Some? <==> exists s: seq<int> :: AllScalars(s) && EncodeAll(s) == b
  {
    if Decode(b).Some? {
      EncodeDecode(b);
    }
    if exists s: seq<int> :: AllScalars(s) && EncodeAll(s) == b {
      var s: seq<int> :| AllScalars(s) && EncodeAll(s) == b;
      DecodeEncode(s);
    }
  }

  // ----- the validator -----

  lemma {:induction false} FoldSplit(cp: nat, bytes: seq<Byte>, b: Byte)
    ensures Fold(cp, bytes + [b]) == Fold(cp, bytes) * 64 + b % 64
    decreases |bytes|
  {
    if bytes == [] {
      assert (bytes + [b])[1..] == [];
    } else {
      assert (bytes + [b])[1..] == bytes[1..] + [b];
      FoldSplit(cp * 64 + bytes[0] % 64, bytes[1..], b);
    }
  }

  /** Reads the continuation bytes that follow a lead byte; None when one is missing. */
  method ReadContinuations(bytes: seq<Byte>, start: nat, count: nat, lead: nat) returns (cp: Option<nat>)
    requires start + count <= |bytes|
    ensures cp == if AllContinuations(bytes[start..start + count]) then Some(Fold(lead, bytes[start..start + count])) else None
  {
    var codePoint: nat := lead;
    for offset := 0 to count
      invariant AllContinuations(bytes[start..start + offset])
      invariant codePoint == Fold(lead, bytes[start..start + offset])
    {
      var b: int := bytes[start + offset];
      if !IsContinuation(b) {
        assert !IsContinuation(bytes[start..start + count][offset]);
        return None;
      }
      assert bytes[start..start + offset + 1] == bytes[start..start + offset] + [b];
      FoldSplit(lead, bytes[start..start + offset], b);
      codePoint := codePoint * 64 + b % 64;
    }
    return Some(codePoint);
  }

  /** Checks the code point that starts at `index`: its lead byte, its continuation bytes and
      its value. */
  method CheckUnit(bytes: seq<Byte>, index: nat) returns (width: nat)
    requires index < |bytes|
    ensures width == (if First(bytes[index..]).Some? then First(bytes[index..]).value.width else 0)
  {
    ghost var rest := bytes[index..];
    var lead := bytes[index];
    if lead <= 0x7F {
      assert rest[1..1] == [];
      return 1;
    }
    var count := 0;
    if 0xC2 <= lead <= 0xDF {
      count := 1;
    } else if 0xE0 <= lead <= 0xEF {
      count := 2;
    } else if 0xF0 <= lead <= 0xF4 {
      count := 3;
    } else {
      return 0;
    }
    if index + 1 + count > |bytes| {
      return 0;
    }
    assert rest[1..count + 1] == bytes[index + 1..index + 1 + count];
    var cp := ReadContinuations(bytes, index + 1, count, LeadBits(lead));
    if cp.None? {
      return 0;
    }
    if (count == 2 && cp.value < 0x800) || (count == 3 && cp.value < 0x10000) ||
       cp.value > 0x10FFFF || 0xD800 <= cp.value <= 0xDFFF {
      return 0;
    }
    return count + 1;
  }

  lemma DecodeStep(bytes: seq<Byte>, index: nat)
    requires index < |bytes|
    ensures var u := First(bytes[index..]);
      Decode(bytes[index..]).Some? <==> u.Some? && Decode(bytes[index + u.value.width..]).Some?
  {
    var rest := bytes[index..];
    if First(rest).Some? {
      assert rest[First(rest).value.width..] == bytes[index + First(rest).value.width..];
    }
  }

  /** Accepts exactly the encodings of sequences of Unicode scalar values. */
  method IsValidUtf8(bytes: seq<Byte>) returns (ok: bool)
    ensures ok <==> Decode(bytes).Some?
    ensures ok <==> exists s: seq<int> :: AllScalars(s) && EncodeAll(s) == bytes
  {
    ValidIffEncoded(bytes);
    ok := ScanUtf8(bytes);
  }

  method ScanUtf8(bytes: seq<Byte>) returns (ok: bool)
    ensures ok <==> Decode(bytes).Some?
  {
    var index := 0;
    ghost var valid := Decode(bytes).Some?;
    assert bytes[0..] == bytes;
    while index < |bytes|
      invariant index <= |bytes|
      invariant valid <==> Decode(bytes[index..]).Some?
    {
      DecodeStep(bytes, index);
      var width := CheckUnit(bytes, index);
      if width == 0 {
        return false;
      }
      index := index + width;
    }
    assert bytes[index..] == [];
    return true;
  }

  // ----- white space -----

  predicate IsSpace(cp: int) {
    0x0009 <= cp <= 0x000D || cp == 0x0020 || cp == 0x00A0 || cp == 0x1680 || 0x2000 <= cp <= 0x200A ||
    cp == 0x2028 || cp == 0x2029 || cp == 0x202F || cp == 0x205F || cp == 0x3000
  }

  function WithoutSpaces(s: seq<int>): (r: seq<int>)
    requires AllScalars(s)
    ensures AllScalars(r)
  {
    if s == [] then [] else (if IsSpace(s[0]) then [] else [s[0]]) + WithoutSpaces(s[1..])
  }

  lemma EncodeOne(cp: int, s: seq<int>)
    requires IsScalar(cp) && AllScalars(s)
    ensures AllScalars([cp] + s) && EncodeAll([cp] + s) == Encode(cp) + EncodeAll(s)
  {
    assert ([cp] + s)[1..] == s;
  }

  /** The count code point by code point. */
  function NonSpace(b: seq<Byte>): nat
    requires Decode(b).Some?
    decreases |b|
  {
    if b == [] then 0
    else
      var u := First(b).value;
      (if IsSpace(u.cp) then 0 else u.width) + NonSpace(b[u.width..])
  }

  lemma {:induction false} NonSpaceIs(b: seq<Byte>)
    requires Decode(b).Some?
    ensures NonSpace(b) == |EncodeAll(WithoutSpaces(Decode(b).value))|
    decreases |b|
  {
    if b != [] {
      var u := First(b).value;
      var rest := Decode(b[u.width..]).value;
      NonSpaceIs(b[u.width..]);
      assert Decode(b).value[1..] == rest;
      EncodeOfFirst(b);
      if IsSpace(u.cp) {
        assert [] + WithoutSpaces(rest) == WithoutSpaces(rest);
      } else {
        EncodeOne(u.cp, WithoutSpaces(rest));
      }
    }
  }

  lemma NonSpaceAt(bytes: seq<Byte>, index: nat)
    requires index < |bytes| && Decode(bytes[index..]).Some?
    ensures First(bytes[index..]).Some?
    ensures var u := First(bytes[index..]).value;
      && Decode(bytes[index + u.width..]).Some?
      && NonSpace(bytes[index..]) == (if IsSpace(u.cp) then 0 else u.width) + NonSpace(bytes[index + u.width..])
  {
    var rest := bytes[index..];
    var u := First(rest).value;
    assert rest[u.width..] == bytes[index + u.width..];
  }

  /** On valid text the count is the encoded length after deleting the space scalars. */
  method CountNonSpaceBytes(bytes: seq<Byte>) returns (result: nat)
    requires Decode(bytes).Some?
    ensures result == |EncodeAll(WithoutSpaces(Decode(bytes).value))|
  {
    NonSpaceIs(bytes);
    assert bytes[0..] == bytes;
    result := CountFrom(bytes);
  }

  method CountFrom(bytes: seq<Byte>) returns (result: nat)
    requires Decode(bytes[0..]).Some?
    ensures result == NonSpace(bytes[0..])
  {
    result := 0;
    var index := 0;
    while index < |bytes|
      invariant index <= |bytes| && Decode(bytes[index..]).Some?
      invariant result + NonSpace(bytes[index..]) == NonSpace(bytes[0..])
    {
      var width, counted := CountOne(bytes, index);
      result, index := result + counted, index + width;
    }
    assert bytes[index..] == [];
  }

  /** One code point, and how many of its bytes count. */
  method CountOne(bytes: seq<Byte>, index: nat) returns (width: nat, counted: nat)
    requires index < |bytes| && Decode(bytes[index..]).Some?
    ensures 0 < width <= |bytes| - index && Decode(bytes[index + width..]).Some?
    ensures NonSpace(bytes[index..]) == counted + NonSpace(bytes[index + width..])
  {
    NonSpaceAt(bytes, index);
    var u := ReadUnit(bytes, index);
    width := u.width;
    counted := if IsSpace(u.cp) then 0 else u.width;
  }

  /** Reads a code point of valid text without checking it again. */
  method ReadUnit(bytes: seq<Byte>, index: nat) returns (u: Unit)
    requires index < |bytes| && First(bytes[index..]).Some?
    ensures u == First(bytes[index..]).value
  {
    ghost var rest := bytes[index..];
    var lead := bytes[index];
    var width := 1;
    if 0xC2 <= lead <= 0xDF {
      width := 2;
    } else if 0xE0 <= lead <= 0xEF {
      width := 3;
    } else if 0xF0 <= lead <= 0xF4 {
      width := 4;
    }
    assert rest[1..width] == bytes[index + 1..index + width];
    var cp := ReadContinuations(bytes, index + 1, width - 1, LeadBits(lead));
    return Unit(cp.value, width);
  }
}
