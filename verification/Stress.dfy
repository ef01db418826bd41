/** Rendering of stress marks: U+0301 goes after the chosen vowel of a word, and words are
    put back into the text they came from by byte offsets. */
module Stress {
  import opened Basics
  import opened Utf8

  const ACUTE := 0x0301

  /** The Russian vowels, then the Latin ones, in both cases. */
  const VOWELS: set<int> :=
    {0x0410, 0x0430, 0x0415, 0x0435, 0x0401, 0x0451, 0x0418, 0x0438, 0x041E, 0x043E, 0x0423, 0x0443,
     0x042B, 0x044B, 0x042D, 0x044D, 0x042E, 0x044E, 0x042F, 0x044F,
     0x0041, 0x0061, 0x0045, 0x0065, 0x0049, 0x0069, 0x004F, 0x006F, 0x0055, 0x0075, 0x0059, 0x0079}

  predicate IsVowel(cp: int) { cp in VOWELS }

  // ----- the reference, on scalar values -----

  function Vowels(s: seq<int>): nat {
    if s == [] then 0 else (if IsVowel(s[0]) then 1 else 0) + Vowels(s[1..])
  }

  /** The mark goes after vowel number k, counted from zero; fewer vowels, no mark. */
  function Stressed(s: seq<int>, k: nat): (r: seq<int>)
    requires AllScalars(s)
    ensures AllScalars(r)
  {
    if s == [] then []
    else if IsVowel(s[0]) && k == 0 then [s[0], ACUTE] + s[1..]
    else [s[0]] + Stressed(s[1..], if IsVowel(s[0]) then k - 1 else k)
  }

  /** Where vowel number k is. */
  function VowelAt(s: seq<int>, k: nat): (i: nat)
    requires Vowels(s) > k
    ensures i < |s|
  {
    if IsVowel(s[0]) && k == 0 then 0 else 1 + VowelAt(s[1..], if IsVowel(s[0]) then k - 1 else k)
  }

  lemma {:induction false} VowelFound(s: seq<int>, k: nat)
    requires Vowels(s) > k
    ensures IsVowel(s[VowelAt(s, k)]) && Vowels(s[..VowelAt(s, k)]) == k
  {
    if !(IsVowel(s[0]) && k == 0) {
      var rest := if IsVowel(s[0]) then k - 1 else k;
      VowelFound(s[1..], rest);
      assert s[..VowelAt(s, k)] == [s[0]] + s[1..][..VowelAt(s[1..], rest)];
      VowelsCons(s[0], s[1..][..VowelAt(s[1..], rest)]);
    }
  }

  lemma VowelsCons(x: int, s: seq<int>)
    ensures Vowels([x] + s) == (if IsVowel(x) then 1 else 0) + Vowels(s)
  {
    assert ([x] + s)[1..] == s;
  }

  lemma {:induction false} StressedKeeps(s: seq<int>, k: nat)
    requires AllScalars(s) && Vowels(s) <= k
    ensures Stressed(s, k) == s
  {
    if s != [] {
      StressedKeeps(s[1..], if IsVowel(s[0]) then k - 1 else k);
      assert [s[0]] + s[1..] == s;
    }
  }

  lemma {:induction false} StressedMarks(s: seq<int>, k: nat)
    requires AllScalars(s) && Vowels(s) > k
    ensures var i := VowelAt(s, k); Stressed(s, k) == s[..i + 1] + [ACUTE] + s[i + 1..]
  {
    if IsVowel(s[0]) && k == 0 {
      assert s[..1] == [s[0]];
    } else {
      var rest := if IsVowel(s[0]) then k - 1 else k;
      StressedMarks(s[1..], rest);
      ShiftedByOne(s, VowelAt(s[1..], rest));
      assert Stressed(s, k) == [s[0]] + Stressed(s[1..], rest);
    }
  }

  /** One mark is inserted, right after a vowel with k vowels before it, and nothing else
      changes; without such a vowel the word stays as it is. */
  lemma StressedInserts(s: seq<int>, k: nat)
    requires AllScalars(s)
    ensures Vowels(s) <= k ==> Stressed(s, k) == s
    ensures Vowels(s) > k ==>
      var i := VowelAt(s, k);
      IsVowel(s[i]) && Vowels(s[..i]) == k && Stressed(s, k) == s[..i + 1] + [ACUTE] + s[i + 1..]
  {
    if Vowels(s) > k {
      VowelFound(s, k);
      StressedMarks(s, k);
    } else {
      StressedKeeps(s, k);
    }
  }

  lemma ShiftedByOne(s: seq<int>, j: nat)
    requires s != [] && j < |s[1..]|
    ensures [s[0]] + (s[1..][..j + 1] + [ACUTE] + s[1..][j + 1..]) == s[..j + 2] + [ACUTE] + s[j + 2..]
  {
    assert s[..j + 2] == [s[0]] + s[1..][..j + 1] && s[j + 2..] == s[1..][j + 1..];
  }

  // ----- one word, on bytes -----

  const ACUTE_BYTES: seq<Byte> := [0xCC, 0x81]

  datatype Rendered = Rendered(bytes: seq<Byte>, marked: bool)

  /** The decoder looks at bit patterns only. */
  method DecodeCodePoint(value: seq<Byte>, offset: nat) returns (u: Option<Unit>)
    ensures u == if offset < |value| then Lenient(value[offset..]) else None
  {
    if offset >= |value| {
      return None;
    }
    var lead := value[offset];
    ghost var rest := value[offset..];
    if lead <= 0x7F {
      assert rest[1..1] == [];
      return Some(Unit(lead, 1));
    }
    var width := Width(lead);
    if width == 0 {
      return None;
    }
    if offset + width > |value| {
      return None;
    }
    assert rest[1..width] == value[offset + 1..offset + width];
    var cp := ReadContinuations(value, offset + 1, width - 1, LeadBits(lead));
    if cp.None? {
      return None;
    }
    return Some(Unit(cp.value, width));
  }

  /** What is left of a word once `k` more vowels have to pass; None when a byte cannot be
      decoded, in which case the word is returned untouched. */
  function Tail(b: seq<Byte>, k: nat): Option<Rendered>
    decreases |b|
  {
    if b == [] then Some(Rendered([], false))
    else
      var u := Lenient(b);
      if u.None? then None
      else
        var head, rest := b[..u.value.width], b[u.value.width..];
        if IsVowel(u.value.cp) && k == 0 then Some(Rendered(head + ACUTE_BYTES + rest, true))
        else
          var t := Tail(rest, if IsVowel(u.value.cp) then k - 1 else k);
          if t.None? then None else Some(Rendered(head + t.value.bytes, t.value.marked))
  }

  function Prefixed(head: seq<Byte>, t: Option<Rendered>): Option<Rendered> {
    if t.None? then None else Some(Rendered(head + t.value.bytes, t.value.marked))
  }

  lemma PrefixedTwice(a: seq<Byte>, b: seq<Byte>, t: Option<Rendered>)
    ensures Prefixed(a, Prefixed(b, t)) == Prefixed(a + b, t) && Prefixed([], t) == t
  {
    if t.Some? {
      assert a + (b + t.value.bytes) == (a + b) + t.value.bytes && [] + t.value.bytes == t.value.bytes;
    }
  }

  lemma MarkHere(output: seq<Byte>, head: seq<Byte>, rest: seq<Byte>)
    ensures Prefixed(output, Some(Rendered(head + ACUTE_BYTES + rest, true)))
      == Some(Rendered(output + head + ACUTE_BYTES + rest, true))
  {
    Reassoc(output, head + ACUTE_BYTES, rest);
    Reassoc(output, head, ACUTE_BYTES);
  }

  lemma NothingLeft(output: seq<Byte>)
    ensures Prefixed(output, Some(Rendered([], false))) == Some(Rendered(output, false))
  {
    assert output + [] == output;
  }

  /** The same by offset into the word. */
  function TailFrom(word: seq<Byte>, offset: nat, k: nat): Option<Rendered>
    requires offset <= |word|
    decreases |word| - offset
  {
    if offset == |word| then Some(Rendered([], false))
    else
      var u := Lenient(word[offset..]);
      if u.None? then None
      else
        var next := offset + u.value.width;
        if IsVowel(u.value.cp) && k == 0 then Some(Rendered(word[offset..next] + ACUTE_BYTES + word[next..], true))
        else Prefixed(word[offset..next], TailFrom(word, next, if IsVowel(u.value.cp) then k - 1 else k))
  }

  function RenderWord(word: seq<Byte>, k: nat): Rendered {
    var t := TailFrom(word, 0, k);
    if t.None? then Rendered(word, false) else t.value
  }

  lemma {:induction false} TailFromIs(word: seq<Byte>, offset: nat, k: nat)
    requires offset <= |word|
    ensures TailFrom(word, offset, k) == Tail(word[offset..], k)
    decreases |word| - offset
  {
    if offset < |word| && Lenient(word[offset..]).Some? {
      var u := Lenient(word[offset..]).value;
      if IsVowel(u.cp) && k == 0 {
        SliceFrom(word, offset, u.width);
      } else {
        var left := if IsVowel(u.cp) then k - 1 else k;
        TailFromIs(word, offset + u.width, left);
        TailsPass(word, offset, u, k, left);
      }
    }
  }

  lemma TailsPass(word: seq<Byte>, offset: nat, u: Unit, k: nat, left: nat)
    requires offset < |word| && Lenient(word[offset..]) == Some(u)
    requires (IsVowel(u.cp) ==> k > 0) && left == if IsVowel(u.cp) then k - 1 else k
    requires TailFrom(word, offset + u.width, left) == Tail(word[offset + u.width..], left)
    ensures TailFrom(word, offset, k) == Tail(word[offset..], k)
  {
    SliceFrom(word, offset, u.width);
    TailPasses(word[offset..], u, k, left);
    TailFromPasses(word, offset, u, k, left);
  }

  lemma TailPasses(b: seq<Byte>, u: Unit, k: nat, left: nat)
    requires b != [] && Lenient(b) == Some(u) && (IsVowel(u.cp) ==> k > 0) && left == if IsVowel(u.cp) then k - 1 else k
    ensures Tail(b, k) == Prefixed(b[..u.width], Tail(b[u.width..], left))
  {
  }

  lemma TailFromPasses(word: seq<Byte>, offset: nat, u: Unit, k: nat, left: nat)
    requires offset < |word| && Lenient(word[offset..]) == Some(u)
    requires (IsVowel(u.cp) ==> k > 0) && left == if IsVowel(u.cp) then k - 1 else k
    ensures TailFrom(word, offset, k) == Prefixed(word[offset..offset + u.width], TailFrom(word, offset + u.width, left))
  {
  }

  lemma SliceFrom(word: seq<Byte>, offset: nat, width: nat)
    requires offset + width <= |word|
    ensures var b := word[offset..]; b[..width] == word[offset..offset + width] && b[width..] == word[offset + width..]
  {
  }

  /** One code point of a word: undecodable, the vowel to mark, or one to pass with this many
      vowels left to pass. */
  datatype Look = Undecodable | MarkAt(next: nat) | Pass(next: nat, left: nat)

  function Looked(word: seq<Byte>, offset: nat, k: Look): Option<Rendered>
    requires offset <= |word|
  {
    match k
    case Undecodable => None
    case MarkAt(next) =>
      if offset <= next <= |word| then Some(Rendered(word[offset..next] + ACUTE_BYTES + word[next..], true)) else None
    case Pass(next, left) =>
      if offset <= next <= |word| then Prefixed(word[offset..next], TailFrom(word, next, left)) else None
  }

  method Peek(word: seq<Byte>, offset: nat, left: nat) returns (k: Look)
    requires offset < |word|
    ensures TailFrom(word, offset, left) == Looked(word, offset, k)
    ensures !k.Undecodable? ==> offset < k.next <= |word|
  {
    var u := DecodeCodePoint(word, offset);
    if u.None? {
      return Undecodable;
    }
    var next := offset + u.value.width;
    if !IsVowel(u.value.cp) {
      return Pass(next, left);
    }
    return if left == 0 then MarkAt(next) else Pass(next, left - 1);
  }

  method RenderTail(word: seq<Byte>, stressed: nat) returns (r: Option<Rendered>)
    ensures r == TailFrom(word, 0, stressed)
  {
    var output: seq<Byte>, left, offset := [], stressed, 0;
    PrefixedTwice([], [], TailFrom(word, 0, stressed));
    while offset < |word|
      invariant offset <= |word|
      invariant TailFrom(word, 0, stressed) == Prefixed(output, TailFrom(word, offset, left))
    {
      var k := Peek(word, offset, left);
      if k.Undecodable? {
        return None;
      }
      var head := word[offset..k.next];
      if k.MarkAt? {
        MarkHere(output, head, word[k.next..]);
        return Some(Rendered(output + head + ACUTE_BYTES + word[k.next..], true));
      }
      PrefixedTwice(output, head, TailFrom(word, k.next, k.left));
      output, offset, left := output + head, k.next, k.left;
    }
    NothingLeft(output);
    return Some(Rendered(output, false));
  }

  /** A word that cannot be decoded comes back as it is. */
  method RenderWordStress(word: seq<Byte>, stressed: nat) returns (r: Rendered)
    ensures r == RenderWord(word, stressed)
  {
    var t := RenderTail(word, stressed);
    return if t.None? then Rendered(word, false) else t.value;
  }

  lemma AcuteEncoded()
    ensures Encode(ACUTE) == ACUTE_BYTES
  {
  }

  lemma {:induction false} EncodeConcat(a: seq<int>, b: seq<int>)
    requires AllScalars(a) && AllScalars(b)
    ensures AllScalars(a + b) && EncodeAll(a + b) == EncodeAll(a) + EncodeAll(b)
  {
    if a == [] {
      assert a + b == b;
    } else {
      EncodeConcat(a[1..], b);
      assert (a + b)[1..] == a[1..] + b;
      Reassoc(Encode(a[0]), EncodeAll(a[1..]), EncodeAll(b));
    }
  }

  lemma Reassoc(a: seq<Byte>, b: seq<Byte>, c: seq<Byte>)
    ensures a + (b + c) == (a + b) + c
  {
  }

  /** On valid text the byte rendering is the scalar one: the mark lands on a code-point
      boundary after the chosen vowel, and the result is valid again. */
  lemma {:induction false} RenderWordScalars(s: seq<int>, k: nat)
    requires AllScalars(s)
    ensures Tail(EncodeAll(s), k) == Some(Rendered(EncodeAll(Stressed(s, k)), Vowels(s) > k))
  {
    if s != [] {
      var b, head, rest := EncodeAll(s), Encode(s[0]), EncodeAll(s[1..]);
      FirstOfEncode(s[0], rest);
      Parts(head, rest);
      if IsVowel(s[0]) && k == 0 {
        StressHere(s);
      } else {
        var k' := if IsVowel(s[0]) then k - 1 else k;
        RenderWordScalars(s[1..], k');
        EncodeOne(s[0], Stressed(s[1..], k'));
      }
    }
  }

  lemma Parts(head: seq<Byte>, rest: seq<Byte>)
    ensures (head + rest)[..|head|] == head && (head + rest)[|head|..] == rest
  {
  }

  lemma StressHere(s: seq<int>)
    requires s != [] && AllScalars(s)
    ensures AllScalars([s[0], ACUTE] + s[1..])
    ensures EncodeAll([s[0], ACUTE] + s[1..]) == Encode(s[0]) + ACUTE_BYTES + EncodeAll(s[1..])
  {
    AcuteEncoded();
    EncodeOne(ACUTE, s[1..]);
    EncodeOne(s[0], [ACUTE] + s[1..]);
    assert [s[0], ACUTE] + s[1..] == [s[0]] + ([ACUTE] + s[1..]);
    Reassoc(Encode(s[0]), ACUTE_BYTES, EncodeAll(s[1..]));
  }

  // ----- words in a text -----

  datatype Word = Word(offset: nat, surface: seq<Byte>, pronunciation: seq<Byte>, stressed: Option<nat>)

  function Spoken(w: Word): seq<Byte> { if w.pronunciation == [] then w.surface else w.pronunciation }

  function Replacement(w: Word): seq<Byte> {
    if w.stressed.Some? then RenderWord(Spoken(w), w.stressed.value).bytes else Spoken(w)
  }

  predicate Skipped(text: seq<Byte>, w: Word, cursor: nat) { w.offset < cursor || w.offset > |text| }

  predicate Overhangs(text: seq<Byte>, w: Word) { w.offset + |w.surface| > |text| }

  /** What the renderer produces from `cursor` on. A word that starts inside the text and
      ends beyond it still copies the text before it, without moving on. */
  function Render(text: seq<Byte>, words: seq<Word>, cursor: nat): seq<Byte>
    requires cursor <= |text|
    decreases |words|
  {
    if words == [] then text[cursor..]
    else
      var w := words[0];
      if Skipped(text, w, cursor) then Render(text, words[1..], cursor)
      else if Overhangs(text, w) then text[cursor..w.offset] + Render(text, words[1..], cursor)
      else text[cursor..w.offset] + Replacement(w) + Render(text, words[1..], w.offset + |w.surface|)
  }

  /** What it is meant to produce: a word that does not fit is left out. */
  function Intended(text: seq<Byte>, words: seq<Word>, cursor: nat): seq<Byte>
    requires cursor <= |text|
    decreases |words|
  {
    if words == [] then text[cursor..]
    else
      var w := words[0];
      if Skipped(text, w, cursor) || Overhangs(text, w) then Intended(text, words[1..], cursor)
      else text[cursor..w.offset] + Replacement(w) + Intended(text, words[1..], w.offset + |w.surface|)
  }

  /** No word that is reached starts beyond the cursor, inside the text, and ends outside. */
  predicate Tidy(text: seq<Byte>, words: seq<Word>, cursor: nat)
    requires cursor <= |text|
    decreases |words|
  {
    words == [] ||
    var w := words[0];
    if Skipped(text, w, cursor) then Tidy(text, words[1..], cursor)
    else if Overhangs(text, w) then w.offset == cursor && Tidy(text, words[1..], cursor)
    else Tidy(text, words[1..], w.offset + |w.surface|)
  }

  lemma {:induction false} RenderLonger(text: seq<Byte>, words: seq<Word>, cursor: nat)
    requires cursor <= |text|
    ensures |Render(text, words, cursor)| >= |Intended(text, words, cursor)|
    ensures !Tidy(text, words, cursor) ==> |Render(text, words, cursor)| > |Intended(text, words, cursor)|
    ensures Tidy(text, words, cursor) ==> Render(text, words, cursor) == Intended(text, words, cursor)
    decreases |words|
  {
    if words != [] {
      var w := words[0];
      if Skipped(text, w, cursor) || Overhangs(text, w) {
        RenderLonger(text, words[1..], cursor);
        assert !Skipped(text, w, cursor) && w.offset == cursor ==>
          text[cursor..w.offset] + Render(text, words[1..], cursor) == Render(text, words[1..], cursor);
      } else {
        RenderLonger(text, words[1..], w.offset + |w.surface|);
      }
    }
  }

  /** The renderer does what it is meant to exactly when no word overhangs the text. */
  lemma RenderedAsIntended(text: seq<Byte>, words: seq<Word>)
    ensures Render(text, words, 0) == Intended(text, words, 0) <==> Tidy(text, words, 0)
  {
    RenderLonger(text, words, 0);
  }

  /** One overhanging word doubles the text before it. */
  lemma OverhangDoubles()
    ensures Render([97, 98], [Word(1, [98, 99], [], None)], 0) == [97, 97, 98]
    ensures Intended([97, 98], [Word(1, [98, 99], [], None)], 0) == [97, 98]
  {
    var words := [Word(1, [98, 99], [], None)];
    assert words[1..] == [];
    assert [97, 98][0..1] + [97, 98][0..] == [97, 97, 98];
  }

  /** Words that lie inside the text are always tidy. */
  lemma {:induction false} InRangeTidy(text: seq<Byte>, words: seq<Word>, cursor: nat)
    requires cursor <= |text| && forall i :: 0 <= i < |words| ==> !Overhangs(text, words[i])
    ensures Tidy(text, words, cursor)
    decreases |words|
  {
    if words != [] {
      var w := words[0];
      if Skipped(text, w, cursor) {
        InRangeTidy(text, words[1..], cursor);
      } else {
        InRangeTidy(text, words[1..], w.offset + |w.surface|);
      }
    }
  }

  /** One word of the text: what it adds to the output, and where the text goes on. */
  method RenderOne(text: seq<Byte>, w: Word, cursor: nat, ghost rest: seq<Word>) returns (part: seq<Byte>, next: nat)
    requires cursor <= |text|
    ensures next <= |text| && Render(text, [w] + rest, cursor) == part + Render(text, rest, next)
  {
    assert ([w] + rest)[1..] == rest;
    if w.offset < cursor || w.offset > |text| {
      assert [] + Render(text, rest, cursor) == Render(text, rest, cursor);
      return [], cursor;
    }
    if w.offset + |w.surface| > |text| {
      return text[cursor..w.offset], cursor;
    }
    var replacement := if w.pronunciation == [] then w.surface else w.pronunciation;
    if w.stressed.Some? {
      var r := RenderWordStress(replacement, w.stressed.value);
      replacement := r.bytes;
    }
    return text[cursor..w.offset] + replacement, w.offset + |w.surface|;
  }

  method RenderExplicitStress(text: seq<Byte>, words: seq<Word>) returns (output: seq<Byte>)
    ensures output == Render(text, words, 0)
  {
    output := [];
    var cursor: nat, i := 0, 0;
    assert words[0..] == words;
    while i < |words|
      invariant i <= |words| && cursor <= |text|
      invariant Render(text, words, 0) == output + Render(text, words[i..], cursor)
    {
      assert words[i..] == [words[i]] + words[i + 1..];
      var part, next := RenderOne(text, words[i], cursor, words[i + 1..]);
      Reassoc(output, part, Render(text, words[i + 1..], next));
      output, cursor, i := output + part, next, i + 1;
    }
    assert words[i..] == [];
    output := output + text[cursor..];
  }

  // ----- whole texts on scalar values -----

  /** A text as its words and what stands before each; `spoken` empty keeps the surface. */
  datatype Segment = Segment(gap: seq<int>, word: seq<int>, spoken: seq<int>, stressed: Option<nat>)

  predicate Scalars(g: Segment) { AllScalars(g.gap) && AllScalars(g.word) && AllScalars(g.spoken) }

  predicate AllSegments(segs: seq<Segment>) { forall i :: 0 <= i < |segs| ==> Scalars(segs[i]) }

  function TextOf(segs: seq<Segment>, last: seq<int>): (r: seq<int>)
    requires AllSegments(segs) && AllScalars(last)
    ensures AllScalars(r)
  {
    if segs == [] then last else segs[0].gap + segs[0].word + TextOf(segs[1..], last)
  }

  function WordOf(g: Segment, offset: nat): Word
    requires Scalars(g)
  {
    Word(offset + |EncodeAll(g.gap)|, EncodeAll(g.word), EncodeAll(g.spoken), g.stressed)
  }

  /** Each word with its byte offset in the text. */
  function WordsOf(segs: seq<Segment>, offset: nat): seq<Word>
    requires AllSegments(segs)
  {
    if segs == [] then []
    else
      var w := WordOf(segs[0], offset);
      [w] + WordsOf(segs[1..], w.offset + |w.surface|)
  }

  function Said(g: Segment): (r: seq<int>)
    requires Scalars(g)
    ensures AllScalars(r)
  {
    var s := if g.spoken == [] then g.word else g.spoken;
    if g.stressed.Some? then Stressed(s, g.stressed.value) else s
  }

  function StressedText(segs: seq<Segment>, last: seq<int>): (r: seq<int>)
    requires AllSegments(segs) && AllScalars(last)
    ensures AllScalars(r)
  {
    if segs == [] then last else segs[0].gap + Said(segs[0]) + StressedText(segs[1..], last)
  }

  lemma {:induction false} EncodedNonEmpty(s: seq<int>)
    requires AllScalars(s)
    ensures EncodeAll(s) == [] <==> s == []
  {
    if s != [] {
      assert |Encode(s[0])| > 0;
    }
  }

  lemma ReplacementSaid(g: Segment, offset: nat)
    requires Scalars(g)
    ensures Replacement(WordOf(g, offset)) == EncodeAll(Said(g))
  {
    EncodedNonEmpty(g.spoken);
    if g.stressed.Some? {
      var s := if g.spoken == [] then g.word else g.spoken;
      RenderWordScalars(s, g.stressed.value);
      TailFromIs(EncodeAll(s), 0, g.stressed.value);
      assert EncodeAll(s)[0..] == EncodeAll(s);
    }
  }

  /** Rendering the first word of a text. */
  lemma RenderStep(before: seq<Byte>, segs: seq<Segment>, last: seq<int>)
    requires AllSegments(segs) && AllScalars(last) && segs != []
    ensures var g := segs[0]; var next := before + EncodeAll(g.gap) + EncodeAll(g.word);
      Render(before + EncodeAll(TextOf(segs, last)), WordsOf(segs, |before|), |before|) ==
      EncodeAll(g.gap) + EncodeAll(Said(g)) +
      Render(next + EncodeAll(TextOf(segs[1..], last)), WordsOf(segs[1..], |next|), |next|)
  {
    var g, w := segs[0], WordOf(segs[0], |before|);
    var gap, word := EncodeAll(g.gap), EncodeAll(g.word);
    var rest := WordsOf(segs[1..], |before + gap + word|);
    TextSplits(before, segs, last);
    ReplacementSaid(g, |before|);
    WordsSplit(segs, |before|, |before + gap + word|);
    RenderBytes(before, gap, word, EncodeAll(TextOf(segs[1..], last)), w, rest, EncodeAll(Said(g)));
  }

  lemma WordsSplit(segs: seq<Segment>, offset: nat, end: nat)
    requires AllSegments(segs) && segs != [] && end == offset + |EncodeAll(segs[0].gap)| + |EncodeAll(segs[0].word)|
    ensures WordsOf(segs, offset) == [WordOf(segs[0], offset)] + WordsOf(segs[1..], end)
  {
    var w := WordOf(segs[0], offset);
    assert w.offset + |w.surface| == end;
  }

  lemma RenderBytes(
    before: seq<Byte>, gap: seq<Byte>, word: seq<Byte>, tail: seq<Byte>, w: Word, rest: seq<Word>, said: seq<Byte>)
    requires w.offset == |before| + |gap| && w.surface == word && Replacement(w) == said
    ensures var text := before + gap + word + tail;
      Render(text, [w] + rest, |before|) == gap + said + Render(text, rest, |before + gap + word|)
  {
    var text := before + gap + word + tail;
    assert text[|before|..|before| + |gap|] == gap;
    RenderHead(text, w, rest, |before|, gap);
  }

  /** For every valid text and every choice of its words, in order and without overlap: the
      renderer yields exactly the text with each word replaced by its spoken, stressed form,
      as valid UTF-8. */
  lemma {:induction false} RenderTextScalars(before: seq<Byte>, segs: seq<Segment>, last: seq<int>)
    requires AllSegments(segs) && AllScalars(last)
    ensures Render(before + EncodeAll(TextOf(segs, last)), WordsOf(segs, |before|), |before|)
      == EncodeAll(StressedText(segs, last))
    decreases |segs|
  {
    if segs == [] {
      Parts(before, EncodeAll(last));
    } else {
      RenderStep(before, segs, last);
      RenderTextScalars(before + EncodeAll(segs[0].gap) + EncodeAll(segs[0].word), segs[1..], last);
      StressedSplits(segs, last);
    }
  }

  lemma StressedSplits(segs: seq<Segment>, last: seq<int>)
    requires AllSegments(segs) && AllScalars(last) && segs != []
    ensures EncodeAll(StressedText(segs, last)) ==
      EncodeAll(segs[0].gap) + EncodeAll(Said(segs[0])) + EncodeAll(StressedText(segs[1..], last))
  {
    EncodeConcat(segs[0].gap, Said(segs[0]));
    EncodeConcat(segs[0].gap + Said(segs[0]), StressedText(segs[1..], last));
  }

  lemma TextSplits(before: seq<Byte>, segs: seq<Segment>, last: seq<int>)
    requires AllSegments(segs) && AllScalars(last) && segs != []
    ensures var gap, word := EncodeAll(segs[0].gap), EncodeAll(segs[0].word);
      var text := before + EncodeAll(TextOf(segs, last));
      && text == (before + gap + word) + EncodeAll(TextOf(segs[1..], last))
      && text[|before|..|before| + |gap|] == gap
  {
    var g, tail := segs[0], TextOf(segs[1..], last);
    EncodeConcat(g.gap, g.word);
    EncodeConcat(g.gap + g.word, tail);
    Reassoc(before, EncodeAll(g.gap) + EncodeAll(g.word), EncodeAll(tail));
    Reassoc(before, EncodeAll(g.gap), EncodeAll(g.word));
  }

  lemma RenderHead(text: seq<Byte>, w: Word, words: seq<Word>, cursor: nat, gap: seq<Byte>)
    requires w.offset == cursor + |gap| && w.offset + |w.surface| <= |text|
    requires text[cursor..cursor + |gap|] == gap
    ensures Render(text, [w] + words, cursor) == gap + Replacement(w) + Render(text, words, w.offset + |w.surface|)
  {
    assert ([w] + words)[1..] == words;
  }
}
