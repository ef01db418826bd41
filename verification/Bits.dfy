/** Unsigned machine arithmetic on natural numbers: powers of two, bitwise or and xor,
    and little-endian digit strings. */
module Bits {
  function Pow2(n: nat): (r: nat)
    ensures r > 0
  {
    if n == 0 then 1 else 2 * Pow2(n - 1)
  }

  /** Left shift. */
  function Shift(a: nat, n: nat): nat
    decreases n
  {
    if n == 0 then a else 2 * Shift(a, n - 1)
  }

  lemma {:induction false} ShiftIs(a: nat, n: nat)
    ensures Shift(a, n) == a * Pow2(n)
    decreases n
  {
    if n > 0 {
      ShiftIs(a, n - 1);
      MulSwap(a, 2, Pow2(n - 1));
    }
  }

  /** Bitwise or. */
  function Or(a: nat, b: nat): nat {
    if a == 0 then b else if b == 0 then a
    else (if a % 2 == 1 || b % 2 == 1 then 1 else 0) + 2 * Or(a / 2, b / 2)
  }

  /** Bitwise exclusive or of two `width`-bit words. */
  function Xor(width: nat, a: nat, b: nat): nat {
    if width == 0 then 0
    else (if a % 2 != b % 2 then 1 else 0) + 2 * Xor(width - 1, a / 2, b / 2)
  }

  lemma {:induction false} Pow2Add(m: nat, n: nat)
    ensures Pow2(m + n) == Pow2(m) * Pow2(n)
  {
    if m > 0 {
      Pow2Add(m - 1, n);
    }
  }

  lemma {:induction false} Pow2Increases(m: nat, n: nat)
    requires m <= n
    ensures Pow2(m) <= Pow2(n)
  {
    if m < n {
      Pow2Increases(m, n - 1);
    }
  }

  /** Or-ing a value shifted past the bits in use adds it. */
  lemma {:induction false} OrShifted(a: nat, b: nat, shift: nat)
    requires a < Pow2(shift)
    ensures Or(a, b * Pow2(shift)) == a + b * Pow2(shift)
  {
    if shift > 0 && a != 0 && b != 0 {
      var c := b * Pow2(shift - 1);
      assert b * Pow2(shift) == 2 * c;
      OrShifted(a / 2, b, shift - 1);
    }
  }

  lemma {:induction false} XorBound(width: nat, a: nat, b: nat)
    ensures Xor(width, a, b) < Pow2(width)
  {
    if width > 0 {
      XorBound(width - 1, a / 2, b / 2);
    }
  }

  /** Xor-ing twice with the same word restores the first one. */
  lemma {:induction false} XorCancels(width: nat, a: nat, b: nat)
    requires a < Pow2(width)
    ensures Xor(width, Xor(width, a, b), b) == a
  {
    if width > 0 {
      var rest := Xor(width - 1, a / 2, b / 2);
      var bit := if a % 2 != b % 2 then 1 else 0;
      XorCancels(width - 1, a / 2, b / 2);
      assert Xor(width, a, b) == bit + 2 * rest;
      XorLow(width, bit, rest, b);
    }
  }

  lemma XorLow(width: nat, bit: nat, rest: nat, b: nat)
    requires width > 0 && bit < 2
    ensures Xor(width, bit + 2 * rest, b) == (if bit != b % 2 then 1 else 0) + 2 * Xor(width - 1, rest, b / 2)
  {
    assert (bit + 2 * rest) % 2 == bit && (bit + 2 * rest) / 2 == rest;
  }

  // ----- little-endian digits of w bits each -----

  predicate AreDigits(w: nat, s: seq<nat>) {
    forall i :: 0 <= i < |s| ==> s[i] < Pow2(w)
  }

  function Value(w: nat, s: seq<nat>): nat {
    if s == [] then 0 else s[0] + Pow2(w) * Value(w, s[1..])
  }

  /** The lowest n digits of v. */
  function Digits(w: nat, n: nat, v: nat): (s: seq<nat>)
    ensures |s| == n
  {
    if n == 0 then []
    else
      Division(v, Pow2(w));
      [v % Pow2(w)] + Digits(w, n - 1, v / Pow2(w))
  }

  // ----- multiplication facts the solver needs spelt out -----

  lemma MulLe(p: nat, a: int, b: int)
    requires a <= b
    ensures p * a <= p * b
  {
  }

  lemma MulSub(p: int, a: int, b: int)
    ensures p * (a - b) == p * a - p * b
  {
  }

  lemma MulSwap(a: int, b: int, c: int)
    ensures a * (b * c) == b * (a * c)
  {
  }

  lemma MulAssoc(a: int, b: int, c: int)
    ensures a * (b * c) == (a * b) * c
  {
  }

  lemma MulAdd(p: int, a: int, b: int)
    ensures p * (a + b) == p * a + p * b
  {
  }

  lemma QuotientUnique(p: nat, v: int, q: int, r: int, k: int, m: int)
    requires v == p * q + r == p * k + m && 0 <= r < p && 0 <= m < p
    ensures k == q && m == r
  {
    MulSub(p, k, q);
    if k < q {
      MulLe(p, 1, q - k);
      MulSub(p, q, k);
    } else if k > q {
      MulLe(p, 1, k - q);
    }
  }

  lemma DivMod(p: nat, q: nat, r: nat)
    requires r < p
    ensures (p * q + r) / p == q && (p * q + r) % p == r
  {
    var v := p * q + r;
    QuotientUnique(p, v, q, r, v / p, v % p);
  }

  lemma NestedDivision(p: nat, q: nat, v: int, a: int, b: int, c: int, d: int)
    requires v == p * a + b && a == q * c + d && 0 <= b < p && 0 <= d < q
    ensures v == (p * q) * c + (p * d + b) && 0 <= p * d + b < p * q
  {
    MulAdd(p, q * c, d);
    MulAssoc(p, q, c);
    MulLe(p, d + 1, q);
    MulAdd(p, d, 1);
    MulLe(p, 0, d);
  }

  lemma Division(v: nat, p: nat)
    requires p > 0
    ensures v == p * (v / p) + v % p && 0 <= v % p < p && 0 <= v / p
  {
  }

  lemma ModSplit(v: nat, p: nat, q: nat)
    requires p > 0 && q > 0
    ensures p * q > 0 && v % (p * q) == v % p + p * ((v / p) % q)
  {
    Division(v, p);
    Division(v / p, q);
    var c, r := v / p / q, p * ((v / p) % q) + v % p;
    NestedDivision(p, q, v, v / p, v % p, c, (v / p) % q);
    Division(v, p * q);
    QuotientUnique(p * q, v, c, r, v / (p * q), v % (p * q));
  }

  // ----- values and digits -----

  lemma {:induction false} ValueBound(w: nat, s: seq<nat>)
    requires AreDigits(w, s)
    ensures Value(w, s) < Pow2(w * |s|)
  {
    if s == [] {
      assert w * |s| == 0;
    } else {
      var t := s[1..];
      ValueBound(w, t);
      PowStep(w, |t|);
      MulLe(Pow2(w), Value(w, t) + 1, Pow2(w * |t|));
      MulAdd(Pow2(w), Value(w, t), 1);
    }
  }

  lemma PowStep(w: nat, n: nat)
    ensures Pow2(w * (n + 1)) == Pow2(w) * Pow2(w * n)
  {
    MulAdd(w, n, 1);
    Pow2Add(w, w * n);
  }

  lemma {:induction false} ValueAppend(w: nat, s: seq<nat>, d: nat)
    ensures Value(w, s + [d]) == Value(w, s) + d * Pow2(w * |s|)
  {
    if s == [] {
      assert s + [d] == [d] && [d][1..] == [];
      assert w * |s| == 0;
    } else {
      var t, q := s[1..], Pow2(w * |s[1..]|);
      assert (s + [d])[1..] == t + [d];
      ValueAppend(w, t, d);
      PowStep(w, |t|);
      MulAdd(Pow2(w), Value(w, t), d * q);
      MulSwap(Pow2(w), d, q);
    }
  }

  lemma {:induction false} DigitsOfValue(w: nat, s: seq<nat>)
    requires AreDigits(w, s)
    ensures Digits(w, |s|, Value(w, s)) == s
  {
    if s != [] {
      DigitsOfValue(w, s[1..]);
      DivMod(Pow2(w), Value(w, s[1..]), s[0]);
    }
  }

  lemma ValueCons(w: nat, d: nat, s: seq<nat>)
    ensures Value(w, [d] + s) == d + Pow2(w) * Value(w, s)
  {
    assert ([d] + s)[1..] == s;
  }

  lemma {:induction false} ValueOfDigits(w: nat, n: nat, v: nat)
    ensures Value(w, Digits(w, n, v)) == v % Pow2(w * n)
  {
    if n == 0 {
      assert w * n == 0;
    } else {
      var p := Pow2(w);
      Division(v, p);
      ValueOfDigits(w, n - 1, v / p);
      PowStep(w, n - 1);
      ModSplit(v, p, Pow2(w * (n - 1)));
      ValueCons(w, v % p, Digits(w, n - 1, v / p));
    }
  }
}
