/** BF16 numbers by their bit patterns, and the keys that sort them as unsigned integers. */
module Bf16 {
  import opened Bits

  type Word = n: nat | n < 0x1_0000

  /** The size of the number with exponent m / 128 and fraction m % 128, in units of the
      smallest subnormal.  Infinity is the first value past the largest finite one. */
  function Magnitude(m: nat): nat {
    if m / 128 == 0 then m % 128 else (128 + m % 128) * Pow2(m / 128 - 1)
  }

  /** The number as an integer: the top bit is its sign, the other fifteen its magnitude. */
  function Value(bits: Word): int {
    if And(bits, 0x8000) == 0 then Magnitude(bits % 0x8000) else 0 - Magnitude(bits % 0x8000)
  }

  /** Positive numbers get the sign bit, negative ones are turned upside down; the negative
      zero counts as the positive one. */
  function Key(bits: Word): nat {
    var b := if Value(bits) == 0 then 0 else bits;
    Xor(b, if And(b, 0x8000) != 0 then 0xffff else 0x8000)
  }

  function Decode(key: Word): nat {
    Xor(key, if And(key, 0x8000) != 0 then 0x8000 else 0xffff)
  }

  // ---------------------------------------------------------------- magnitudes

  lemma MagnitudeSteps(m: nat)
    ensures m < 256 ==> Magnitude(m) == m
    ensures m >= 256 ==> Magnitude(m) == 2 * Magnitude(m - 128)
  {
    if m >= 256 {
      var e, f := m / 128, m % 128;
      assert (m - 128) / 128 == e - 1 && (m - 128) % 128 == f;
      assert Pow2(e - 1) == 2 * Pow2(e - 2);
      assert (128 + f) * (2 * Pow2(e - 2)) == 2 * ((128 + f) * Pow2(e - 2));
    }
  }

  lemma {:induction false} MagnitudeGrows(m: nat, n: nat)
    requires m < n
    ensures Magnitude(m) < Magnitude(n)
    decreases n
  {
    MagnitudeSteps(m);
    MagnitudeSteps(n);
    if m < n - 1 {
      MagnitudeGrows(m, n - 1);
    }
    if n >= 256 {
      MagnitudeSteps(n - 1);
      if n >= 257 { MagnitudeGrows(n - 129, n - 128); }
    }
  }

  // ---------------------------------------------------------------- keys

  lemma Powers()
    ensures Pow2(15) == 0x8000 && Pow2(16) == 0x1_0000
  {
    assert Pow2(3) == 8;
    assert Pow2(6) == 64;
    assert Pow2(9) == 512;
    assert Pow2(12) == 4096;
  }

  lemma ValueIs(bits: Word)
    ensures And(bits, 0x8000) != 0 <==> bits >= 0x8000
    ensures Value(bits) == if bits < 0x8000 then Magnitude(bits) else 0 - Magnitude(bits - 0x8000)
    ensures Value(bits) == 0 <==> bits == 0 || bits == 0x8000
  {
    hide Magnitude, And;
    Powers();
    AndTop(bits, 15);
    MagnitudeZero();
    var m := if bits < 0x8000 then bits else bits - 0x8000;
    assert bits % 0x8000 == m;
    if m > 0 { MagnitudeGrows(0, m); }
  }

  lemma KeyIs(bits: Word)
    ensures Key(bits) == if bits == 0x8000 then 0x8000 else if bits < 0x8000 then bits + 0x8000 else 0xffff - bits
    ensures Key(bits) < 0x1_0000
  {
    hide Magnitude, Value, And, Xor;
    Powers();
    ValueIs(bits);
    ValueIs(0);
    XorTop(bits, 15);
    XorTop(0, 15);
    XorOnes(bits, 16);
  }

  lemma DecodeIs(key: Word)
    ensures Decode(key) == if key >= 0x8000 then key - 0x8000 else 0xffff - key
    ensures Decode(key) < 0x1_0000
  {
    Powers();
    AndTop(key, 15);
    XorTop(key, 15);
    XorOnes(key, 16);
  }

  predicate IsZero(bits: Word) {
    bits == 0 || bits == 0x8000
  }

  /** Keys sort like values; only the two zeros share a key. */
  lemma KeyOrder(a: Word, b: Word)
    ensures Key(a) < Key(b) <==> Value(a) < Value(b)
    ensures Key(a) == Key(b) <==> Value(a) == Value(b)
    ensures Key(a) == Key(b) <==> a == b || (IsZero(a) && IsZero(b))
  {
    hide Value, Key, Magnitude;
    ValueIs(a);
    ValueIs(b);
    KeyIs(a);
    KeyIs(b);
    var m, n := if a < 0x8000 then a else a - 0x8000, if b < 0x8000 then b else b - 0x8000;
    if m < n { MagnitudeGrows(m, n); }
    if n < m { MagnitudeGrows(n, m); }
    if 0 < m { MagnitudeGrows(0, m); }
    if 0 < n { MagnitudeGrows(0, n); }
    MagnitudeZero();
  }

  lemma MagnitudeZero()
    ensures Magnitude(0) == 0
  {
  }

  /** Decoding a key gives back the number, and every key but that of no number at all. */
  lemma DecodeInverts(bits: Word, key: Word)
    ensures Key(bits) < 0x1_0000 && Decode(Key(bits)) < 0x1_0000 && Value(Decode(Key(bits))) == Value(bits)
    ensures Decode(key) < 0x1_0000 && (Key(Decode(key)) == key <==> key != 0x7fff)
    ensures Key(bits) != 0x7fff
  {
    hide Value, Key, Magnitude, Decode;
    ValueIs(bits);
    KeyIs(bits);
    DecodeIs(Key(bits));
    ValueIs(Decode(Key(bits)));
    DecodeIs(key);
    KeyIs(Decode(key));
    KeyIs(Decode(Key(bits)));
    MagnitudeZero();
  }

  // ---------------------------------------------------------------- as real numbers

  /** The real number a BF16 value stands for; the smallest subnormal is 2^-133. */
  function Real(x: int): real {
    x as real / Pow2(133) as real
  }

  /** Exponent e and fraction f stand for (1 + f / 128) * 2^(e - 127), either sign. */
  lemma NumberIs(e: nat, f: nat)
    requires 0 < e < 256 && f < 128
    ensures e >= 127 ==> Real(Value(e * 128 + f)) == (1.0 + f as real / 128.0) * Pow2(e - 127) as real
    ensures e <= 127 ==> Real(Value(e * 128 + f)) * Pow2(127 - e) as real == 1.0 + f as real / 128.0
    ensures Value(0x8000 + e * 128 + f) == 0 - Value(e * 128 + f)
  {
    hide Value, Magnitude, Real, Pow2;
    var bits: Word := e * 128 + f;
    ValueIs(bits);
    ValueIs(0x8000 + bits);
    if e >= 127 { LargeIs(e, f); }
    if e <= 127 { SmallIs(e, f); }
  }

  lemma LargeIs(e: nat, f: nat)
    requires 127 <= e && f < 128
    ensures Real(Magnitude(e * 128 + f)) == (1.0 + f as real / 128.0) * Pow2(e - 127) as real
  {
    hide Pow2, Magnitude;
    NormalIs(e, f);
    SevenIs();
    PowersAdd(7, 126);
    PowersAdd(e - 127, 126);
    Cast(128 + f, Pow2(e - 1));
    Cast(Pow2(e - 127), Pow2(126));
    Cast(128, Pow2(126));
    Large((128 + f) as real, Pow2(e - 127) as real, Pow2(126) as real, Magnitude(e * 128 + f) as real);
  }

  lemma SmallIs(e: nat, f: nat)
    requires 0 < e <= 127 && f < 128
    ensures Real(Magnitude(e * 128 + f)) * Pow2(127 - e) as real == 1.0 + f as real / 128.0
  {
    hide Pow2, Magnitude;
    NormalIs(e, f);
    SevenIs();
    PowersAdd(7, 126);
    PowersAdd(127 - e, e - 1);
    Cast(128 + f, Pow2(e - 1));
    Cast(Pow2(127 - e), Pow2(e - 1));
    Cast(128, Pow2(126));
    Small((128 + f) as real, Pow2(e - 1) as real, Pow2(127 - e) as real, Pow2(126) as real,
          Magnitude(e * 128 + f) as real);
  }

  lemma Cast(a: nat, b: nat)
    ensures (a * b) as real == a as real * b as real
  {
  }

  lemma NormalIs(e: nat, f: nat)
    requires 0 < e && f < 128
    ensures Magnitude(e * 128 + f) == (128 + f) * Pow2(e - 1)
  {
    hide Pow2;
  }

  lemma SevenIs()
    ensures Pow2(7) == 128
  {
  }

  lemma Large(a: real, p: real, unit: real, m: real)
    requires unit > 0.0 && m == a * (p * unit)
    ensures m / (128.0 * unit) == (1.0 + (a - 128.0) / 128.0) * p
  {
    DivideBy(m, 128.0 * unit, a / 128.0 * p);
  }

  lemma Small(a: real, p: real, q: real, unit: real, m: real)
    requires unit > 0.0 && m == a * p && unit == q * p
    ensures m / (128.0 * unit) * q == 1.0 + (a - 128.0) / 128.0
  {
    assert m * q == a * unit;
    DivideBy(m * q, 128.0 * unit, a / 128.0);
    assert m / (128.0 * unit) * q == m * q / (128.0 * unit);
  }

  lemma DivideBy(n: real, d: real, q: real)
    requires d != 0.0 && n == q * d
    ensures n / d == q
  {
  }

  /** So the unit is right: this is the number one. */
  lemma OneIs()
    ensures Real(Value(0x3f80)) == 1.0
  {
    hide Value, Pow2;
    OneToNothing();
    NumberIs(127, 0);
  }

  lemma OneToNothing()
    ensures Pow2(0) == 1
  {
  }
}
