/** The exact k-th largest number of a row of logits, by two passes over a 256-digit radix. */
module RadixTopK {
  import opened Types
  import opened Arith
  import opened Bits
  import opened Bf16

  // ---------------------------------------------------------------- counting

  /** How many of row[from..to] have a key between lo and hi. */
  function Tally(row: seq<Word>, from: nat, to: nat, lo: nat, hi: nat): (n: nat)
    requires from <= to <= |row|
    ensures n <= to - from
  {
    if from == to then 0
    else Tally(row, from, to - 1, lo, hi) + if lo <= Key(row[to - 1]) < hi then 1 else 0
  }

  lemma {:induction false} TallySplit(row: seq<Word>, from: nat, to: nat, lo: nat, mid: nat, hi: nat)
    requires from <= to <= |row| && lo <= mid <= hi
    ensures Tally(row, from, to, lo, hi) == Tally(row, from, to, lo, mid) + Tally(row, from, to, mid, hi)
  {
    if from < to { TallySplit(row, from, to - 1, lo, mid, hi); }
  }

  lemma {:induction false} TallyJoin(row: seq<Word>, from: nat, mid: nat, to: nat, lo: nat, hi: nat)
    requires from <= mid <= to <= |row|
    ensures Tally(row, from, to, lo, hi) == Tally(row, from, mid, lo, hi) + Tally(row, mid, to, lo, hi)
  {
    if mid < to { TallyJoin(row, from, mid, to - 1, lo, hi); }
  }

  lemma {:induction false} TallyAll(row: seq<Word>, to: nat)
    requires to <= |row|
    ensures Tally(row, 0, to, 0, 0x1_0000) == to
  {
    if to > 0 {
      TallyAll(row, to - 1);
      KeyIs(row[to - 1]);
    }
  }

  lemma {:induction false} TallyFinds(row: seq<Word>, to: nat, lo: nat, hi: nat) returns (i: nat)
    requires to <= |row| && Tally(row, 0, to, lo, hi) > 0
    ensures i < to && lo <= Key(row[i]) < hi
  {
    if lo <= Key(row[to - 1]) < hi { i := to - 1; } else { i := TallyFinds(row, to - 1, lo, hi); }
  }

  /** How many numbers of the row are larger than x, and how many are at least x. */
  function Above(row: seq<Word>, x: int): nat {
    if row == [] then 0 else Above(row[..|row| - 1], x) + if Value(row[|row| - 1]) > x then 1 else 0
  }

  function AtLeast(row: seq<Word>, x: int): nat {
    if row == [] then 0 else AtLeast(row[..|row| - 1], x) + if Value(row[|row| - 1]) >= x then 1 else 0
  }

  lemma {:induction false} TallyIsAbove(row: seq<Word>, to: nat, cut: Word)
    requires to <= |row|
    ensures Above(row[..to], Value(cut)) == Tally(row, 0, to, Key(cut) + 1, 0x1_0000)
    ensures AtLeast(row[..to], Value(cut)) == Tally(row, 0, to, Key(cut), 0x1_0000)
  {
    hide Value, Key;
    if to > 0 {
      TallyIsAbove(row, to - 1, cut);
      assert row[..to][..to - 1] == row[..to - 1];
      KeyOrder(cut, row[to - 1]);
      KeyIs(row[to - 1]);
    }
  }

  // ---------------------------------------------------------------- histograms

  /** h counts row[from..to] by the digit that cells of the given size starting at base give. */
  ghost predicate Counts(h: seq<nat>, row: seq<Word>, from: nat, to: nat, base: nat, size: pos)
    requires from <= to <= |row|
  {
    && |h| == 256
    && forall d :: 0 <= d < 256 ==> h[d] == Tally(row, from, to, base + Span(size, d), base + Span(size, d + 1))
  }

  function Suffix(h: seq<nat>, d: nat): nat
    requires d <= |h|
    decreases |h| - d
  {
    if d == |h| then 0 else h[d] + Suffix(h, d + 1)
  }

  lemma {:induction false} SuffixTallies(h: seq<nat>, row: seq<Word>, from: nat, to: nat, base: nat, size: pos, d: nat)
    requires from <= to <= |row| && Counts(h, row, from, to, base, size) && d <= 256
    ensures Suffix(h, d) == Tally(row, from, to, base + Span(size, d), base + Span(size, 256))
    decreases 256 - d
  {
    if d < 256 {
      SuffixTallies(h, row, from, to, base, size, d + 1);
      SpanGrows(size, d + 1, 256);
      TallySplit(row, from, to, base + Span(size, d), base + Span(size, d + 1), base + Span(size, 256));
    } else {
      TallyNone(row, from, to, base + Span(size, d));
    }
  }

  lemma {:induction false} TallyNone(row: seq<Word>, from: nat, to: nat, lo: nat)
    requires from <= to <= |row|
    ensures Tally(row, from, to, lo, lo) == 0
  {
    if from < to { TallyNone(row, from, to - 1, lo); }
  }

  /** The digit in which the k-th entry falls, counting from the largest digit down, and how
      far into that digit's entries it lies. */
  method SelectDigit(histogram: array<nat>, k: nat) returns (digit: nat, rest: nat)
    requires histogram.Length == 256 && 0 < k <= Suffix(histogram[..], 0)
    ensures digit < 256 && Suffix(histogram[..], digit + 1) < k <= Suffix(histogram[..], digit)
    ensures rest == k - Suffix(histogram[..], digit + 1)
  {
    var prefix, tid := 0, 0;
    ghost var h := histogram[..];
    while tid < 256
      invariant tid <= 256 && prefix == Suffix(h, 256 - tid) && prefix < k
      decreases 256 - tid
    {
      var count := histogram[255 - tid];
      assert h[255 - tid] == count;
      if prefix < k && k <= prefix + count {
        return 255 - tid, k - prefix;
      }
      prefix, tid := prefix + count, tid + 1;
    }
  }

  lemma CountOne(h: seq<nat>, row: seq<Word>, from: nat, i: nat, base: nat, size: pos, d: nat)
    requires from <= i < |row| && Counts(h, row, from, i, base, size) && d < 256
    requires base + Span(size, d) <= Key(row[i]) < base + Span(size, d + 1)
    ensures Counts(h[d := h[d] + 1], row, from, i + 1, base, size)
  {
    hide Key;
    forall e | 0 <= e < 256 && e != d
      ensures !(base + Span(size, e) <= Key(row[i]) < base + Span(size, e + 1))
    {
      if e < d { SpanGrows(size, e + 1, d); } else { SpanGrows(size, d + 1, e); }
    }
  }

  lemma CountNone(h: seq<nat>, row: seq<Word>, from: nat, i: nat, base: nat, size: pos)
    requires from <= i < |row| && Counts(h, row, from, i, base, size)
    requires Key(row[i]) < base || base + Span(size, 256) <= Key(row[i])
    ensures Counts(h, row, from, i + 1, base, size)
  {
    hide Key;
    forall e | 0 <= e < 256
      ensures !(base + Span(size, e) <= Key(row[i]) < base + Span(size, e + 1))
    {
      SpanGrows(size, e + 1, 256);
    }
  }

  /** A key by its two digits. */
  lemma Digits(key: Word)
    ensures Shr(key, 8) == key / 256 < 256 && And(key, 255) == key % 256
    ensures Span(256, key / 256) + key % 256 == key && Span(256, key / 256 + 1) == Span(256, key / 256) + 256
    ensures Span(1, key % 256) == key % 256
  {
    assert Pow2(8) == 256 by { assert Pow2(4) == 16; }
    ShrIs(key, 8);
    AndOnes(key, 8);
    SpanIsProduct(256, key / 256);
    SpanIsProduct(1, key % 256);
  }

  /** A tile's histogram of high digits. */
  method TileHistogram(row: seq<Word>, from: nat, to: nat) returns (histogram: array<nat>)
    requires from <= to <= |row|
    ensures fresh(histogram) && histogram.Length == 256 && Counts(histogram[..], row, from, to, 0, 256)
  {
    hide Key, Shr, Span;
    histogram := new nat[256](_ => 0);
    for i := from to to
      invariant Counts(histogram[..], row, from, i, 0, 256)
    {
      KeyIs(row[i]);
      Digits(Key(row[i]));
      var digit := Shr(Key(row[i]), 8);
      CountOne(histogram[..], row, from, i, 0, 256, digit);
      histogram[digit] := histogram[digit] + 1;
    }
  }

  /** Adds a tile's histogram to those of the tiles before it. */
  method AddTile(count: array<nat>, tile: array<nat>, ghost row: seq<Word>, ghost mid: nat, ghost to: nat)
    requires mid <= to <= |row| && count != tile && count.Length == tile.Length == 256
    requires Counts(count[..], row, 0, mid, 0, 256) && Counts(tile[..], row, mid, to, 0, 256)
    modifies count
    ensures Counts(count[..], row, 0, to, 0, 256)
  {
    hide Key, Span, Tally;
    ghost var before := count[..];
    for d := 0 to 256
      invariant forall e :: 0 <= e < 256 ==> count[e] == if e < d then before[e] + tile[e] else before[e]
    {
      count[d] := count[d] + tile[d];
    }
    forall d | 0 <= d < 256
      ensures count[..][d] == Tally(row, 0, to, 0 + Span(256, d), 0 + Span(256, d + 1))
    {
      assert before[d] == Tally(row, 0, mid, 0 + Span(256, d), 0 + Span(256, d + 1));
      assert tile[..][d] == Tally(row, mid, to, 0 + Span(256, d), 0 + Span(256, d + 1));
      TallyJoin(row, 0, mid, to, 0 + Span(256, d), 0 + Span(256, d + 1));
    }
  }

  /** The first pass: the histograms of all tiles, added up. */
  method HighHistogram(row: seq<Word>, tileSize: pos) returns (count: array<nat>)
    ensures count.Length == 256 && Counts(count[..], row, 0, |row|, 0, 256)
  {
    hide Key, Span, Counts;
    count := TileHistogram(row, 0, 0);
    var from := 0;
    while from < |row|
      invariant from <= |row| && fresh(count) && count.Length == 256 && Counts(count[..], row, 0, from, 0, 256)
    {
      var to := Min(from + tileSize, |row|);
      var tile := TileHistogram(row, from, to);
      AddTile(count, tile, row, from, to);
      from := to;
    }
  }

  /** The second pass: the low digits of the keys with a given high digit. */
  method LowHistogram(row: seq<Word>, high: nat) returns (histogram: array<nat>)
    requires high < 256
    ensures histogram.Length == 256 && Counts(histogram[..], row, 0, |row|, Span(256, high), 1)
  {
    hide Key, Shr, And, Span;
    histogram := new nat[256](_ => 0);
    for i := 0 to |row|
      invariant Counts(histogram[..], row, 0, i, Span(256, high), 1)
    {
      KeyIs(row[i]);
      var key := Key(row[i]);
      Digits(key);
      if Shr(key, 8) == high {
        OneMore(key % 256);
        CountOne(histogram[..], row, 0, i, Span(256, high), 1, And(key, 255));
        histogram[And(key, 255)] := histogram[And(key, 255)] + 1;
      } else {
        OtherHigh(key, high);
        CountNone(histogram[..], row, 0, i, Span(256, high), 1);
      }
    }
  }

  lemma OneMore(d: nat)
    ensures Span(1, d + 1) == Span(1, d) + 1
  {
  }

  lemma OtherHigh(key: Word, high: nat)
    requires key / 256 != high
    ensures key < Span(256, high) || Span(256, high) + Span(1, 256) <= key
  {
    SpanIsProduct(256, high);
    SpanIsProduct(1, 256);
  }

  lemma CutoffKey(high: nat, low: nat)
    requires high < 256 && low < 256
    ensures Or(Shl(high, 8), low) == Span(256, high) + low < 0x1_0000
    ensures Span(256, high) + Span(1, 256) == Span(256, high + 1)
    ensures Span(1, low) == low && Span(1, low + 1) == low + 1 && Span(1, 256) == 256 && Span(256, 256) == 0x1_0000
  {
    assert Pow2(8) == 256 by { assert Pow2(4) == 16; }
    ShlIs(high, 8);
    OrShifted(high, low, 8);
    SpanIsProduct(256, high);
    SpanIsProduct(1, 256);
    SpanIsProduct(1, low);
    SpanIsProduct(256, 256);
  }

  lemma RadixExact(row: seq<Word>, h: seq<nat>, l: seq<nat>, k: nat, high: nat, k1: nat, low: nat, k2: nat)
    requires Counts(h, row, 0, |row|, 0, 256) && Counts(l, row, 0, |row|, Span(256, high), 1) && high < 256 && low < 256
    requires Suffix(h, high + 1) < k <= Suffix(h, high) && k1 == k - Suffix(h, high + 1)
    requires Suffix(l, low + 1) < k1 <= Suffix(l, low) && k2 == k1 - Suffix(l, low + 1)
    ensures var key := Span(256, high) + low;
            Tally(row, 0, |row|, key + 1, 0x1_0000) < k <= Tally(row, 0, |row|, key, 0x1_0000)
  {
    hide Tally, Span, Counts, Suffix;
    var key := Span(256, high) + low;
    CutoffKey(high, low);
    SpanGrows(256, high + 1, 256);
    SuffixTallies(h, row, 0, |row|, 0, 256, high + 1);
    SuffixTallies(l, row, 0, |row|, Span(256, high), 1, low + 1);
    SuffixTallies(l, row, 0, |row|, Span(256, high), 1, low);
    TallySplit(row, 0, |row|, key + 1, Span(256, high + 1), 0x1_0000);
    TallySplit(row, 0, |row|, key, Span(256, high + 1), 0x1_0000);
  }

  /** The low pass has enough entries for what the high pass left over. */
  lemma LowIsEnough(row: seq<Word>, h: seq<nat>, l: seq<nat>, high: nat)
    requires Counts(h, row, 0, |row|, 0, 256) && Counts(l, row, 0, |row|, Span(256, high), 1) && high < 256
    ensures Suffix(l, 0) == Suffix(h, high) - Suffix(h, high + 1)
  {
    hide Tally, Span;
    CutoffKey(high, 0);
    SuffixTallies(l, row, 0, |row|, Span(256, high), 1, 0);
  }

  lemma HighIsEnough(row: seq<Word>, h: seq<nat>)
    requires Counts(h, row, 0, |row|, 0, 256)
    ensures Suffix(h, 0) == |row|
  {
    SpanIsProduct(256, 256);
    SuffixTallies(h, row, 0, |row|, 0, 256, 0);
    TallyAll(row, |row|);
  }

  /** x is the k-th largest number of the row: fewer than k are larger, k are at least as
      large, and it occurs. */
  ghost predicate IsKthLargest(row: seq<Word>, k: nat, x: int) {
    Above(row, x) < k <= AtLeast(row, x) && exists i :: 0 <= i < |row| && Value(row[i]) == x
  }

  lemma CutoffIsKth(row: seq<Word>, k: nat, key: Word)
    requires Tally(row, 0, |row|, key + 1, 0x1_0000) < k <= Tally(row, 0, |row|, key, 0x1_0000)
    ensures Decode(key) < 0x1_0000 && IsKthLargest(row, k, Value(Decode(key)))
  {
    hide Key, Value, Decode, Tally, Above, AtLeast;
    TallySplit(row, 0, |row|, key, key + 1, 0x1_0000);
    var i := TallyFinds(row, |row|, key, key + 1);
    KeyIs(row[i]);
    DecodeInverts(row[i], key);
    TallyIsAbove(row, |row|, Decode(key));
    KeyOrder(row[i], Decode(key));
    assert row[..|row|] == row;
  }

  /** The cutoff below which a token is no candidate; ties at the cutoff are kept. */
  method Cutoff(row: seq<Word>, topK: nat, tileSize: pos) returns (cutoff: Word)
    requires 1 < topK < |row|
    ensures IsKthLargest(row, topK, Value(cutoff))
  {
    hide Key, Value, Decode, Tally, Counts, Span, Suffix, Or, Shl, IsKthLargest;
    var histogram := HighHistogram(row, tileSize);
    HighIsEnough(row, histogram[..]);
    var high, k1 := SelectDigit(histogram, topK);
    var lows := LowHistogram(row, high);
    LowIsEnough(row, histogram[..], lows[..], high);
    var low, k2 := SelectDigit(lows, k1);
    RadixExact(row, histogram[..], lows[..], topK, high, k1, low, k2);
    CutoffKey(high, low);
    CutoffIsKth(row, topK, Or(Shl(high, 8), low));
    cutoff := Decode(Or(Shl(high, 8), low));
  }
}
