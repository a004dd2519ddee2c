/** The hash of a block: every token is mixed into a 64-bit word by an invertible function. */
module BlockHashing {
  import opened Types
  import opened Arith
  import opened Bits
  import opened CachePool

  const WORD: nat := 0x1_0000_0000_0000_0000
  const C1: nat := 0xbf58476d1ce4e5b9
  const C2: nat := 0x94d049bb133111eb
  const INVERSE1: nat := 0x96de1b173f119089
  const INVERSE2: nat := 0x319642b2d24d8ec3

  function Times(v: nat, factor: nat): (r: nat)
    ensures r < WORD
  {
    v * factor % WORD
  }

  function XorShift(v: nat, k: nat): nat {
    Xor(v, Shr(v, k))
  }

  function Mix(v: nat): nat {
    XorShift(Times(XorShift(Times(XorShift(v, 30), C1), 27), C2), 31)
  }

  /** Undoes XorShift on 64-bit words, for shifts of at least 22. */
  function Unshift(y: nat, k: nat): nat {
    Xor(y, Xor(Shr(y, k), Shr(y, 2 * k)))
  }

  function Unmix(h: nat): nat {
    Unshift(Times(Unshift(Times(Unshift(h, 31), INVERSE2), 27), INVERSE1), 30)
  }

  lemma WordIs()
    ensures Pow2(64) == WORD
  {
    hide Pow2;
    SixteenIs();
    PowersAdd(4, 4);
    PowersAdd(8, 8);
    PowersAdd(16, 16);
    PowersAdd(32, 32);
  }

  lemma SixteenIs()
    ensures Pow2(4) == 16
  {
  }

  lemma ShiftUndone(v: nat, k: nat)
    requires v < WORD && 3 * k >= 64
    ensures XorShift(v, k) < WORD && Unshift(XorShift(v, k), k) == v
  {
    hide Xor, Shr, Pow2;
    WordIs();
    PowersGrow(64, 3 * k);
    var y, s1, s2 := XorShift(v, k), Shr(v, k), Shr(v, 2 * k);
    ShrShrinks(v, k);
    XorBound(v, s1, 64);
    ShrXor(v, s1, k);
    ShrTwice(v, k, k);
    ShrXor(v, s1, 2 * k);
    ShrTwice(v, k, 2 * k);
    ShrGone(v, 3 * k);
    XorComm(s2, 0);
    XorZero(s2);
    XorCancels(s1, s2);
    XorCancels(v, s1);
  }

  lemma XorZero(a: nat)
    ensures Xor(0, a) == a
  {
  }

  /** Multiplying by an odd constant is undone by its inverse modulo 2^64. */
  lemma TimesUndone(v: nat, factor: nat, inverse: nat, t: nat)
    requires v < WORD && factor * inverse == t * WORD + 1
    ensures Times(Times(v, factor), inverse) == v
  {
    var q, r := v * factor / WORD, v * factor % WORD;
    assert v * factor == q * WORD + r;
    var k := v * t - q * inverse;
    Regroup(v, factor, inverse, t, q, r);
    if k < 0 { Negative(k, v); }
    DivUnique(r * inverse, WORD, k, v);
  }

  lemma Regroup(v: nat, factor: nat, inverse: nat, t: nat, q: nat, r: nat)
    requires v * factor == q * WORD + r && factor * inverse == t * WORD + 1
    ensures r * inverse == (v * t - q * inverse) * WORD + v
  {
    calc {
      r * inverse;
      (v * factor - q * WORD) * inverse;
      { Spread(v * factor, q * WORD, inverse); }
      v * factor * inverse - q * WORD * inverse;
      { Associate(v, factor, inverse); Associate(q, WORD, inverse); Associate(q, inverse, WORD); }
      v * (t * WORD + 1) - q * inverse * WORD;
      { Associate(v, t, WORD); }
      v * t * WORD + v - q * inverse * WORD;
      { Spread(v * t, q * inverse, WORD); }
      (v * t - q * inverse) * WORD + v;
    }
  }

  lemma Spread(a: int, b: int, c: int)
    ensures (a - b) * c == a * c - b * c
  {
  }

  lemma Associate(a: int, b: int, c: int)
    ensures a * b * c == a * (b * c)
  {
  }

  lemma Negative(k: int, v: nat)
    requires k < 0 && v < WORD
    ensures k * WORD + v < 0
  {
  }

  /** Mixing loses nothing. */
  lemma MixUndone(v: nat)
    requires v < WORD
    ensures Mix(v) < WORD && Unmix(Mix(v)) == v
  {
    hide Times, XorShift, Unshift;
    var a := Times(XorShift(v, 30), C1);
    var b := Times(XorShift(a, 27), C2);
    ShiftUndone(v, 30);
    ShiftUndone(a, 27);
    ShiftUndone(b, 31);
    Inverses();
    TimesUndone(XorShift(v, 30), C1, INVERSE1, 8125545580553827436);
    TimesUndone(XorShift(a, 27), C2, INVERSE2, 2077064247507883091);
  }

  lemma Inverses()
    ensures C1 * INVERSE1 == 8125545580553827436 * WORD + 1
    ensures C2 * INVERSE2 == 2077064247507883091 * WORD + 1
  {
  }

  // ---------------------------------------------------------------- blocks

  /** A token as the unsigned 32-bit number it is hashed as. */
  function Unsigned(t: Token): (r: nat)
    ensures r < 0x1_0000_0000
  {
    t % 0x1_0000_0000
  }

  function BlockHash(parent: Hash, tokens: seq<Token>): (h: Hash)
    requires parent < WORD
    ensures h < WORD
  {
    if tokens == [] then parent
    else
      var front := BlockHash(parent, tokens[..|tokens| - 1]);
      var word := Xor(front, Unsigned(tokens[|tokens| - 1]));
      WordXor(front, Unsigned(tokens[|tokens| - 1]));
      MixUndone(word);
      Mix(word)
  }

  lemma WordXor(a: nat, b: nat)
    requires a < WORD && b < 0x1_0000_0000
    ensures Xor(a, b) < WORD
  {
    WordIs();
    XorBound(a, b, 64);
  }

  method ComputeBlockHash(parent: Hash, tokens: seq<Token>) returns (hash: Hash)
    requires parent < WORD
    ensures hash == BlockHash(parent, tokens)
  {
    hide Mix, Xor;
    hash := parent;
    for i := 0 to |tokens|
      invariant hash == BlockHash(parent, tokens[..i])
    {
      assert tokens[..i + 1][..i] == tokens[..i];
      hash := Mix(Xor(hash, Unsigned(tokens[i])));
    }
    assert tokens[..|tokens|] == tokens;
  }

  /** The tokens are folded front to back, so a hash can be resumed anywhere. */
  lemma {:induction false} HashResumes(p: Hash, ts: seq<Token>, us: seq<Token>)
    requires p < WORD
    ensures BlockHash(p, ts + us) == BlockHash(BlockHash(p, ts), us)
  {
    hide Mix, Xor;
    if us == [] {
      assert ts + us == ts;
    } else {
      var front, last := us[..|us| - 1], us[|us| - 1];
      HashResumes(p, ts, front);
      assert (ts + us)[..|ts + us| - 1] == ts + front;
    }
  }

  /** Each token goes in as its low 32 bits, mixed as by splitmix64. */
  lemma OneTokenHash(p: Hash, t: Token)
    requires p < WORD
    ensures var v := Xor(p, t % 0x1_0000_0000);
            var x := Xor(v, Shr(v, 30)) * 0xbf58476d1ce4e5b9 % WORD;
            var y := Xor(x, Shr(x, 27)) * 0x94d049bb133111eb % WORD;
            BlockHash(p, [t]) == Xor(y, Shr(y, 31))
  {
    hide Xor, Shr;
    assert [t][..0] == [];
  }

  lemma StepInjective(a: nat, b: nat, s: Token, t: Token)
    requires a < WORD && b < WORD && (a == b) != (Unsigned(s) == Unsigned(t))
    ensures Mix(Xor(a, Unsigned(s))) != Mix(Xor(b, Unsigned(t)))
  {
    hide Mix, Xor, Unsigned;
    var x, y := Unsigned(s), Unsigned(t);
    WordXor(a, x);
    WordXor(b, y);
    MixUndone(Xor(a, x));
    MixUndone(Xor(b, y));
    XorCancels(a, x);
    XorCancels(b, y);
    XorComm(a, x);
    XorComm(b, y);
    XorCancels(x, a);
    XorCancels(y, b);
  }

  /** The same block after different prefixes has different hashes, and so have two blocks
      after the same prefix that differ in just one token. */
  lemma {:induction false} OneChangeShows(p: Hash, q: Hash, ts: seq<Token>, us: seq<Token>)
    requires p < WORD && q < WORD && |ts| == |us|
    requires p != q ==> forall i :: 0 <= i < |ts| ==> Unsigned(ts[i]) == Unsigned(us[i])
    requires p == q ==> exists i :: OnlyDifference(ts, us, i)
    ensures BlockHash(p, ts) != BlockHash(q, us)
  {
    hide Mix, Xor, Unsigned;
    if ts != [] {
      var n := |ts| - 1;
      var tf, uf := ts[..n], us[..n];
      if p == q {
        var i :| OnlyDifference(ts, us, i);
        if i < n {
          assert OnlyDifference(tf, uf, i);
          OneChangeShows(p, q, tf, uf);
        } else {
          SameHash(p, tf, uf);
        }
      } else {
        OneChangeShows(p, q, tf, uf);
      }
      StepInjective(BlockHash(p, tf), BlockHash(q, uf), ts[n], us[n]);
    }
  }

  ghost predicate OnlyDifference(ts: seq<Token>, us: seq<Token>, i: int) {
    && 0 <= i < |ts| == |us| && Unsigned(ts[i]) != Unsigned(us[i])
    && forall j :: 0 <= j < |ts| && j != i ==> Unsigned(ts[j]) == Unsigned(us[j])
  }

  lemma {:induction false} SameHash(p: Hash, ts: seq<Token>, us: seq<Token>)
    requires p < WORD && |ts| == |us| && forall i :: 0 <= i < |ts| ==> Unsigned(ts[i]) == Unsigned(us[i])
    ensures BlockHash(p, ts) == BlockHash(p, us)
  {
    hide Mix, Xor, Unsigned;
    if ts != [] {
      SameHash(p, ts[..|ts| - 1], us[..|us| - 1]);
    }
  }

  // ---------------------------------------------------------------- chains of blocks

  /** The hash as the cache manager's parameter; a parent is a 64-bit word. */
  function WordHash(parent: Hash, tokens: seq<Token>): Hash {
    BlockHash(parent % WORD, tokens)
  }

  lemma {:induction false} ChainIsWord(c: Config, P: seq<Token>, n: nat)
    requires c.blockHash == WordHash && Span(c.blockSize, n) <= |P|
    ensures Chain(c, P, n) < WORD
    ensures n > 0 ==> Chain(c, P, n) == BlockHash(Chain(c, P, n - 1), BlockTokens(c, P, n - 1))
  {
    hide BlockHash;
    if n > 0 { ChainIsWord(c, P, n - 1); }
  }

  ghost predicate SameUpTo(P: seq<Token>, Q: seq<Token>, m: nat) {
    m <= |P| && m <= |Q| && forall j :: 0 <= j < m ==> Unsigned(P[j]) == Unsigned(Q[j])
  }

  lemma {:induction false} SameChain(c: Config, P: seq<Token>, Q: seq<Token>, n: nat)
    requires c.blockHash == WordHash && SameUpTo(P, Q, Span(c.blockSize, n))
    ensures Chain(c, P, n) == Chain(c, Q, n)
  {
    hide BlockHash, Unsigned;
    if n > 0 {
      SameChain(c, P, Q, n - 1);
      ChainIsWord(c, P, n);
      ChainIsWord(c, Q, n);
      ChainIsWord(c, P, n - 1);
      SameHash(Chain(c, P, n - 1), BlockTokens(c, P, n - 1), BlockTokens(c, Q, n - 1));
    }
  }

  /** Of two sequences the first m tokens differ at i and nowhere else. */
  ghost predicate DifferAt(P: seq<Token>, Q: seq<Token>, m: nat, i: nat) {
    && i < m <= |P| && m <= |Q| && Unsigned(P[i]) != Unsigned(Q[i])
    && forall j :: 0 <= j < m && j != i ==> Unsigned(P[j]) == Unsigned(Q[j])
  }

  /** What the last block of two such sequences looks like. */
  lemma LastBlock(c: Config, P: seq<Token>, Q: seq<Token>, n: nat, i: nat)
    requires n > 0 && DifferAt(P, Q, Span(c.blockSize, n), i)
    ensures Span(c.blockSize, n - 1) + c.blockSize == Span(c.blockSize, n) <= |P| && Span(c.blockSize, n) <= |Q|
    ensures var ts, us, from := BlockTokens(c, P, n - 1), BlockTokens(c, Q, n - 1), Span(c.blockSize, n - 1);
            && |ts| == |us| == c.blockSize
            && if i < from then DifferAt(P, Q, from, i) && SameUpTo(ts, us, |ts|)
               else SameUpTo(P, Q, from) && OnlyDifference(ts, us, i - from)
  {
    hide Unsigned;
  }

  /** One token that differs shows in the chained hash of all the blocks from its own on. */
  lemma {:induction false} OneTokenShows(c: Config, P: seq<Token>, Q: seq<Token>, n: nat, i: nat)
    requires c.blockHash == WordHash && DifferAt(P, Q, Span(c.blockSize, n), i)
    ensures Chain(c, P, n) != Chain(c, Q, n)
  {
    hide BlockHash, Unsigned, Chain, BlockTokens, OnlyDifference, DifferAt;
    NoneDiffer(c, P, Q, i);
    LastBlock(c, P, Q, n, i);
    ChainIsWord(c, P, n);
    ChainIsWord(c, Q, n);
    ChainIsWord(c, P, n - 1);
    ChainIsWord(c, Q, n - 1);
    if i < Span(c.blockSize, n - 1) {
      OneTokenShows(c, P, Q, n - 1, i);
    } else {
      SameChain(c, P, Q, n - 1);
    }
    OneChangeShows(Chain(c, P, n - 1), Chain(c, Q, n - 1), BlockTokens(c, P, n - 1), BlockTokens(c, Q, n - 1));
  }

  lemma NoneDiffer(c: Config, P: seq<Token>, Q: seq<Token>, i: nat)
    ensures !DifferAt(P, Q, Span(c.blockSize, 0), i)
  {
  }
}
