/** The Philox4x32-10 counter generator as the trace validator mirrors it, and the schedule
    of counters that an accepted trace has used. */
module Philox {
  import opened Basics
  import opened Bits

  const WORD := 0x1_0000_0000
  const M0 := 0xD251_1F53
  const M1 := 0xCD9E_8D57
  const W0 := 0x9E37_79B9
  const W1 := 0xBB67_AE85

  datatype Counter = Counter(a: nat, b: nat, c: nat, d: nat)
  datatype Key = Key(a: nat, b: nat)

  predicate IsWord(w: nat) { w < WORD }

  predicate Words(c: Counter) { IsWord(c.a) && IsWord(c.b) && IsWord(c.c) && IsWord(c.d) }

  // ----- one round -----

  function High(m: nat, w: nat): nat { Division(m * w, WORD); m * w / WORD % WORD }

  function Low(m: nat, w: nat): nat { Division(m * w, WORD); m * w % WORD }

  const BITS: nat := 32

  function Xor32(a: nat, b: nat): nat { Xor(BITS, a, b) }

  function Round(x: Counter, k: Key): Counter {
    Counter(Xor32(Xor32(High(M1, x.c), x.b), k.a), Low(M1, x.c), Xor32(Xor32(High(M0, x.a), x.d), k.b), Low(M0, x.a))
  }

  lemma WordIsPow2()
    ensures Pow2(32) == WORD
  {
    assert Pow2(4) == 16;
    Pow2Add(4, 4);
    Pow2Add(8, 8);
    Pow2Add(16, 16);
  }

  lemma RoundWords(x: Counter, k: Key)
    ensures Words(Round(x, k))
  {
    WordIsPow2();
    XorBound(BITS, Xor32(High(M1, x.c), x.b), k.a);
    XorBound(BITS, Xor32(High(M0, x.a), x.d), k.b);
    Division(M1 * x.c, WORD);
    Division(M0 * x.a, WORD);
  }

  // ----- undoing a round -----

  /** Inverses of the odd multipliers modulo 2^32. */
  const I0 := 0x991A_7CDB
  const I1 := 0x6D7C_AE67

  lemma Unmultiply(m: nat, i: nat, w: nat)
    requires (m * i) % WORD == 1 && IsWord(w)
    ensures (i * Low(m, w)) % WORD == w
  {
    var t, q, low := m * i / WORD, m * w / WORD, Low(m, w);
    Division(m * i, WORD);
    Division(m * w, WORD);
    assert i * (m * w) == i * (WORD * q) + i * low by { MulAdd(i, WORD * q, low); }
    assert i * (WORD * q) == WORD * (i * q) by { MulSwap(i, WORD, q); }
    assert i * (m * w) == (m * i) * w by { MulAssoc(i, m, w); MulCommutes(i, m); }
    assert (m * i) * w == WORD * (t * w) + w by { Distribute(WORD, t, w); }
    assert i * low == WORD * (t * w - i * q) + w by { MulSub(WORD, t * w, i * q); }
    Division(i * low, WORD);
    QuotientUnique(WORD, i * low, t * w - i * q, w, i * low / WORD, i * low % WORD);
  }

  lemma MulCommutes(a: int, b: int)
    ensures a * b == b * a
  {
  }

  lemma Distribute(p: nat, t: int, w: int)
    ensures (p * t + 1) * w == p * (t * w) + w
  {
    MulCommutes(p * t + 1, w);
    MulAdd(w, p * t, 1);
    MulSwap(w, p, t);
    MulCommutes(w, t);
  }

  lemma Inverses()
    ensures (M0 * I0) % WORD == 1 && (M1 * I1) % WORD == 1
  {
  }

  function Unround(y: Counter, k: Key): Counter {
    Division(I0 * y.d, WORD);
    Division(I1 * y.b, WORD);
    var a, c := I0 * y.d % WORD, I1 * y.b % WORD;
    Counter(a, Unmix(y.a, k.a, High(M1, c)), c, Unmix(y.c, k.b, High(M0, a)))
  }

  function Unmix(mixed: nat, key: nat, high: nat): nat { Xor32(Xor32(mixed, key), high) }

  lemma UnmixMixed(high: nat, word: nat, key: nat)
    requires IsWord(word)
    ensures Unmix(Xor32(Xor32(high, word), key), key, high) == word
  {
    WordIsPow2();
    XorBound(BITS, high, word);
    XorCancels(BITS, Xor32(high, word), key);
    XorCommutes(BITS, high, word);
    XorCancels(BITS, word, high);
  }

  lemma {:induction false} XorCommutes(width: nat, a: nat, b: nat)
    ensures Xor(width, a, b) == Xor(width, b, a)
  {
    if width > 0 {
      XorCommutes(width - 1, a / 2, b / 2);
    }
  }

  /** A round can be undone. */
  lemma UnroundRound(x: Counter, k: Key)
    requires Words(x)
    ensures Unround(Round(x, k), k) == x
  {
    Inverses();
    Unmultiply(M0, I0, x.a);
    Unmultiply(M1, I1, x.c);
    UnmixMixed(High(M1, x.c), x.b, k.a);
    UnmixMixed(High(M0, x.a), x.d, k.b);
  }

  // ----- ten rounds -----

  function Bumped(k: Key): Key { Key((k.a + W0) % WORD, (k.b + W1) % WORD) }

  /** The keys of n rounds. */
  function Keys(k: Key, n: nat): (r: seq<Key>)
    ensures |r| == n
    decreases n
  {
    if n == 0 then [] else [k] + Keys(Bumped(k), n - 1)
  }

  function Rounds(x: Counter, keys: seq<Key>): Counter
    decreases |keys|
  {
    if keys == [] then x else Rounds(Round(x, keys[0]), keys[1..])
  }

  /** Any number of rounds is injective on 128-bit counters, for all keys. */
  lemma {:induction false} RoundsInjective(x: Counter, y: Counter, keys: seq<Key>)
    requires Words(x) && Words(y) && Rounds(x, keys) == Rounds(y, keys)
    ensures x == y
    decreases |keys|
  {
    if keys != [] {
      RoundWords(x, keys[0]);
      RoundWords(y, keys[0]);
      RoundsInjective(Round(x, keys[0]), Round(y, keys[0]), keys[1..]);
      UnroundRound(x, keys[0]);
      UnroundRound(y, keys[0]);
    }
  }

  function KeyOf(seed: int): Key { Key(seed % WORD, seed / WORD % WORD) }

  function CounterOf(subsequence: int): Counter { Counter(0, 0, subsequence % WORD, subsequence / WORD % WORD) }

  const ROUNDS: nat := 10

  /** The block of random bits that one draw consumes. */
  function Block(seed: int, subsequence: int): Counter { Rounds(CounterOf(subsequence), Keys(KeyOf(seed), ROUNDS)) }

  /** The generator's loop: nine rounds with a key change after each, then the last. */
  method PhiloxBlock(seed: int, subsequence: int) returns (counter: Counter)
    ensures counter == Block(seed, subsequence)
  {
    var key := Key(seed % WORD, seed / WORD % WORD);
    counter := Counter(0, 0, subsequence % WORD, subsequence / WORD % WORD);
    for i := 0 to ROUNDS - 1
      invariant Rounds(counter, Keys(key, ROUNDS - i)) == Block(seed, subsequence)
    {
      RoundsStep(counter, key, ROUNDS - i - 1);
      counter := Round(counter, key);
      key := Key((key.a + W0) % WORD, (key.b + W1) % WORD);
    }
    RoundsStep(counter, key, 0);
    counter := Round(counter, key);
  }

  lemma RoundsStep(x: Counter, k: Key, n: nat)
    ensures Rounds(x, Keys(k, n + 1)) == Rounds(Round(x, k), Keys(Bumped(k), n))
  {
    assert Keys(k, n + 1)[1..] == Keys(Bumped(k), n);
  }

  /** Two draws share a block exactly when their subsequences agree modulo 2^64. */
  lemma BlocksDiffer(seed: int, s: int, t: int)
    ensures Block(seed, s) == Block(seed, t) <==> s % (WORD * WORD) == t % (WORD * WORD)
  {
    SameCounter(s, t);
    if Block(seed, s) == Block(seed, t) {
      RoundsInjective(CounterOf(s), CounterOf(t), Keys(KeyOf(seed), ROUNDS));
    }
  }

  lemma SameCounter(s: int, t: int)
    ensures CounterOf(s) == CounterOf(t) <==> s % (WORD * WORD) == t % (WORD * WORD)
    ensures Words(CounterOf(s)) && Words(CounterOf(t))
  {
    TwoWords(s);
    TwoWords(t);
  }

  lemma TwoWords(s: int)
    ensures s % (WORD * WORD) == s % WORD + WORD * (s / WORD % WORD)
  {
  }

  // ----- a word as a float32 fraction -----

  const MANTISSA := 0x100_0000
  const TWO33 := 0x2_0000_0000

  /** The distance between neighbouring float32 values around n. */
  function Spacing(n: nat): (u: nat)
    ensures u > 0
  {
    if n < MANTISSA then 1 else 2 * Spacing(n / 2)
  }

  /** The nearest multiple of u, the even one of two. */
  function Nearest(n: nat, u: nat): nat
    requires u > 0
  {
    Division(n, u);
    var q: nat := n / u;
    if 2 * (n % u) < u || (2 * (n % u) == u && q % 2 == 0) then u * q else u * q + u
  }

  function Float32(n: nat): nat { Nearest(n, Spacing(n)) }

  /** The fraction in units of 2^-33: the word rounded, a half added and rounded again. */
  function Steps(word: nat): nat { Float32(2 * Float32(word) + 1) }

  function Uniform(word: nat): real { Steps(word) as real / TWO33 as real }

  lemma NearestClose(n: nat, u: nat)
    requires u > 0
    ensures n - u <= 2 * Nearest(n, u) - n <= n + u
  {
    Division(n, u);
  }

  /** Below 2^24 times a power of two, the spacing divides that power. */
  lemma {:induction false} SpacingFits(n: nat, e: nat) returns (k: nat)
    requires n < MANTISSA * Pow2(e)
    ensures Spacing(n) * k == Pow2(e) && k > 0 && Spacing(n) <= Pow2(e)
    decreases e
  {
    if n < MANTISSA {
      k := Pow2(e);
    } else {
      assert e > 0;
      k := SpacingFits(n / 2, e - 1);
    }
  }

  lemma NearestBelow(n: nat, u: nat, k: nat)
    requires u > 0 && n < u * k
    ensures Nearest(n, u) <= u * k
  {
    Division(n, u);
    if n / u >= k {
      MulLe(u, k, n / u);
    } else {
      MulLe(u, n / u + 1, k);
      MulAdd(u, n / u, 1);
    }
  }

  /** Rounding stays below the power and within half its spacing. */
  lemma Float32Close(n: nat, e: nat)
    requires n < MANTISSA * Pow2(e)
    ensures Float32(n) <= MANTISSA * Pow2(e)
    ensures n - Pow2(e) <= 2 * Float32(n) - n <= n + Pow2(e)
  {
    var k := SpacingFits(n, e);
    NearestClose(n, Spacing(n));
    assert Spacing(n) * (MANTISSA * k) == MANTISSA * Pow2(e);
    NearestBelow(n, Spacing(n), MANTISSA * k);
  }

  lemma Powers()
    ensures Pow2(8) == 256 && Pow2(9) == 512 && Pow2(10) == 1024
  {
    assert Pow2(4) == 16;
    Pow2Add(4, 4);
    assert Pow2(9) == 2 * Pow2(8) && Pow2(10) == 2 * Pow2(9);
  }

  /** The fraction of every word is positive, at most one, and within 2^-24 of the exact one. */
  lemma UniformClose(word: nat)
    requires IsWord(word)
    ensures 0 < Steps(word) <= TWO33
    ensures (2 * word + 1) - 512 <= Steps(word) <= (2 * word + 1) + 512
  {
    Powers();
    Float32Close(word, 8);
    var m := 2 * Float32(word) + 1;
    if m < TWO33 {
      Float32Close(m, 9);
    } else {
      Float32Close(m, 10);
      TopRounds();
    }
    if m < MANTISSA {
      Division(m, 1);
    }
  }

  lemma {:induction false} SpacingOfPower(e: nat)
    ensures Spacing(MANTISSA * Pow2(e)) == 2 * Pow2(e)
  {
    if e > 0 {
      SpacingOfPower(e - 1);
      assert MANTISSA * Pow2(e) / 2 == MANTISSA * Pow2(e - 1);
    } else {
      assert MANTISSA * Pow2(0) == MANTISSA;
      assert Spacing(MANTISSA / 2) == 1;
    }
  }

  /** The largest words become exactly one. */
  lemma TopRounds()
    ensures Float32(TWO33 + 1) == TWO33
  {
    Powers();
    SpacingOfPower(8);
    assert (TWO33 + 1) / 2 == MANTISSA * Pow2(8);
    assert Spacing(TWO33 + 1) == 1024;
    assert Nearest(TWO33 + 1, 1024) == TWO33;
  }

  // ----- the trace -----

  datatype Value = Finite(x: real) | NotFinite
  datatype Draw = Draw(subsequence: int, observed: Value) | Malformed
  datatype Record = Record(step: int, base: int, draws: seq<Draw>)

  predicate DrawOk(uniform: int -> real, tolerance: real, expected: int, d: Draw) {
    && d.Draw? && d.subsequence == expected && d.observed.Finite? && 0.0 <= d.observed.x < 1.0
    && d.observed.x - uniform(expected) <= tolerance && uniform(expected) - d.observed.x <= tolerance
  }

  predicate DrawsOk(uniform: int -> real, tolerance: real, base: int, draws: seq<Draw>) {
    forall j :: 0 <= j < |draws| ==> DrawOk(uniform, tolerance, base + 1 + j, draws[j])
  }

  predicate RecordOk(uniform: int -> real, tolerance: real, i: int, r: Record) {
    r.step == i && r.base == 16 * i && |r.draws| == 15 && DrawsOk(uniform, tolerance, 16 * i, r.draws)
  }

  predicate Accepted(uniform: int -> real, tolerance: real, records: seq<Record>) {
    records != [] && forall i :: 0 <= i < |records| ==> RecordOk(uniform, tolerance, i, records[i])
  }

  method CheckDraws(uniform: int -> real, tolerance: real, base: int, draws: seq<Draw>) returns (ok: bool)
    ensures ok <==> DrawsOk(uniform, tolerance, base, draws)
  {
    for j := 0 to |draws|
      invariant DrawsOk(uniform, tolerance, base, draws[..j])
    {
      var d := draws[j];
      if d.Malformed? || d.subsequence != base + 1 + j || d.observed.NotFinite? {
        return false;
      }
      if !(0.0 <= d.observed.x < 1.0) {
        return false;
      }
      var expected := uniform(d.subsequence);
      var error := if d.observed.x >= expected then d.observed.x - expected else expected - d.observed.x;
      if error > tolerance {
        return false;
      }
      assert draws[..j + 1] == draws[..j] + [d];
    }
    assert draws[..|draws|] == draws;
    return true;
  }

  /** The value that a draw should have: the first word of its block as a fraction. */
  function UniformOf(seed: int): int -> real { s => Uniform(Block(seed, s).a) }

  /** Accepts exactly the traces of the expected shape whose values come from the blocks of
      the seed, and counts their draws. */
  method ValidateProbe(seed: int, tolerance: real, records: seq<Record>) returns (checked: Option<nat>)
    ensures checked.Some? <==> Accepted(UniformOf(seed), tolerance, records)
    ensures checked.Some? ==> checked.value == 15 * |records|
  {
    checked := ValidateTrace(UniformOf(seed), tolerance, records);
  }

  method ValidateTrace(uniform: int -> real, tolerance: real, records: seq<Record>)
    returns (checked: Option<nat>)
    ensures checked.Some? <==> Accepted(uniform, tolerance, records)
    ensures checked.Some? ==> checked.value == 15 * |records|
  {
    if records == [] {
      return None;
    }
    var draws := 0;
    for i := 0 to |records|
      invariant draws == 15 * i
      invariant forall k :: 0 <= k < i ==> RecordOk(uniform, tolerance, k, records[k])
    {
      var r := records[i];
      if r.step != i || r.base != r.step * 16 || |r.draws| != 15 {
        assert !RecordOk(uniform, tolerance, i, records[i]);
        return None;
      }
      var ok := CheckDraws(uniform, tolerance, r.base, r.draws);
      if !ok {
        assert !RecordOk(uniform, tolerance, i, records[i]);
        return None;
      }
      draws := draws + 15;
    }
    return Some(draws);
  }

  /** Draw number n of a trace, counted over all records, used subsequence s. */
  predicate Drew(records: seq<Record>, n: nat, s: int) {
    n / 15 < |records| && n % 15 < |records[n / 15].draws| && records[n / 15].draws[n % 15].Draw? &&
    records[n / 15].draws[n % 15].subsequence == s
  }

  function Scheduled(n: nat): int { 16 * (n / 15) + 1 + n % 15 }

  lemma DrawnAt(uniform: int -> real, tolerance: real, records: seq<Record>, n: nat, s: int)
    requires Accepted(uniform, tolerance, records)
    ensures Drew(records, n, s) <==> n < 15 * |records| && s == Scheduled(n)
  {
    var i, j := n / 15, n % 15;
    if i < |records| {
      assert RecordOk(uniform, tolerance, i, records[i]);
      assert DrawOk(uniform, tolerance, 16 * i + 1 + j, records[i].draws[j]);
    }
  }

  /** An accepted trace of n steps has used exactly the subsequences below 16n that are not
      multiples of 16. */
  lemma ScheduleComplete(uniform: int -> real, tolerance: real, records: seq<Record>, s: int)
    requires Accepted(uniform, tolerance, records)
    ensures 0 <= s < 16 * |records| && s % 16 != 0 <==> exists n: nat :: Drew(records, n, s)
  {
    if 0 <= s < 16 * |records| && s % 16 != 0 {
      var n := 15 * (s / 16) + s % 16 - 1;
      assert n / 15 == s / 16 && n % 15 == s % 16 - 1;
      DrawnAt(uniform, tolerance, records, n, s);
      assert Drew(records, n, s);
    }
    if exists n: nat :: Drew(records, n, s) {
      var n: nat :| Drew(records, n, s);
      DrawnAt(uniform, tolerance, records, n, s);
    }
  }

  /** It used each of them once, and, up to 2^60 steps, no two draws shared a block. */
  lemma BlocksDistinct(
    uniform: int -> real, seed: int, tolerance: real, records: seq<Record>, m: nat, n: nat, s: int, t: int)
    requires Accepted(uniform, tolerance, records) && m != n && Drew(records, m, s) && Drew(records, n, t)
    ensures s != t
    ensures 16 * |records| <= WORD * WORD ==> Block(seed, s) != Block(seed, t)
  {
    DrawnAt(uniform, tolerance, records, m, s);
    DrawnAt(uniform, tolerance, records, n, t);
    SmallAndDifferent(m, n, |records|);
    BlocksDiffer(seed, s, t);
  }

  lemma SmallAndDifferent(m: nat, n: nat, steps: nat)
    requires m < 15 * steps && n < 15 * steps && m != n
    ensures var s, t := Scheduled(m), Scheduled(n);
      s != t && (16 * steps <= WORD * WORD ==> s % (WORD * WORD) == s && t % (WORD * WORD) == t)
  {
  }
}
