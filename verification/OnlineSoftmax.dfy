/** Attention of one query row over tiles of keys, with a running reference exponent that is
    only raised when the scores have outgrown it, over exact reals. */
module OnlineSoftmax {
  import opened Types
  import opened Arith
  import opened AttentionTiles

  const MAX_GAP: real := 8.0

  /** What is used of exp2: positive, growing, and turning sums into products. */
  ghost predicate Exp2Like(e: real -> real) {
    && (forall x: real :: e(x) > 0.0)
    && (forall x: real, y: real :: e(x + y) == e(x) * e(y))
  }

  function Power(e: real -> real, x: real): real {
    e(x)
  }

  /** The kernel's exponent of key k, relative to a reference. */
  function Exponent(score: seq<real>, scale: real, k: nat, ref: real): real
    requires k < |score|
  {
    score[k] * scale - ref
  }

  /** Softmax denominator and numerator over the first n keys, relative to a reference. */
  function Mass(e: real -> real, score: seq<real>, scale: real, ref: real, n: nat): real
    requires n <= |score|
  {
    if n == 0 then 0.0 else Mass(e, score, scale, ref, n - 1) + Power(e, Exponent(score, scale, n - 1, ref))
  }

  function WeightedSum(e: real -> real, score: seq<real>, value: seq<real>, scale: real, ref: real, n: nat): real
    requires n <= |score| == |value|
  {
    if n == 0 then 0.0
    else WeightedSum(e, score, value, scale, ref, n - 1) + Power(e, Exponent(score, scale, n - 1, ref)) * value[n - 1]
  }

  lemma ShiftPower(e: real -> real, x: real, a: real, b: real, f: real)
    requires Exp2Like(e) && f == Power(e, a - b)
    ensures Power(e, x - b) == Power(e, x - a) * f
  {
    assert x - b == (x - a) + (a - b);
  }

  /** Moving the reference multiplies both sums by the same power. */
  lemma {:induction false} ShiftMass(
    e: real -> real, score: seq<real>, value: seq<real>, scale: real, a: real, b: real, f: real, n: nat)
    requires Exp2Like(e) && n <= |score| == |value| && f == Power(e, a - b)
    ensures Mass(e, score, scale, b, n) == Mass(e, score, scale, a, n) * f
    ensures WeightedSum(e, score, value, scale, b, n) == WeightedSum(e, score, value, scale, a, n) * f
  {
    hide Power;
    if n == 0 {
      NoMass(f);
    } else {
      ShiftMass(e, score, value, scale, a, b, f, n - 1);
      var p, q := Power(e, Exponent(score, scale, n - 1, a)), Power(e, Exponent(score, scale, n - 1, b));
      ShiftPower(e, score[n - 1] * scale, a, b, f);
      Distribute(Mass(e, score, scale, a, n - 1), p, f, q);
      Weigh(WeightedSum(e, score, value, scale, a, n - 1), p, value[n - 1], f, q);
    }
  }

  lemma NoMass(f: real)
    ensures 0.0 * f == 0.0
  {
  }

  lemma Distribute(x: real, y: real, f: real, z: real)
    requires z == y * f
    ensures (x + y) * f == x * f + z
  {
  }

  lemma Weigh(x: real, p: real, v: real, f: real, z: real)
    requires z == p * f
    ensures (x + p * v) * f == x * f + z * v
  {
  }

  lemma {:induction false} MassPositive(e: real -> real, score: seq<real>, scale: real, ref: real, n: nat)
    requires Exp2Like(e) && n <= |score|
    ensures Mass(e, score, scale, ref, n) >= 0.0 && (n > 0 ==> Mass(e, score, scale, ref, n) > 0.0)
  {
    if n > 0 { MassPositive(e, score, scale, ref, n - 1); }
  }

  /** The attention of a row that sees the first n keys; it does not depend on a reference. */
  ghost predicate IsAttention(e: real -> real, score: seq<real>, value: seq<real>, scale: real, n: nat, o: real)
    requires n <= |score| == |value|
  {
    o * Mass(e, score, scale, 0.0, n) == WeightedSum(e, score, value, scale, 0.0, n)
  }

  lemma QuotientIsAttention(e: real -> real, score: seq<real>, value: seq<real>, scale: real, ref: real, n: nat,
    l: real, acc: real)
    requires Exp2Like(e) && 0 < n <= |score| == |value|
    requires l == Mass(e, score, scale, ref, n) && acc == WeightedSum(e, score, value, scale, ref, n)
    ensures l > 0.0 && IsAttention(e, score, value, scale, n, acc / l)
  {
    hide Mass, WeightedSum, Power;
    MassPositive(e, score, scale, ref, n);
    var f := Power(e, ref - 0.0);
    ShiftMass(e, score, value, scale, ref, 0.0, f, n);
    Cancel(acc, l, f);
  }

  lemma Cancel(acc: real, l: real, f: real)
    requires l > 0.0
    ensures acc / l * (l * f) == acc * f
  {
    assert acc / l * l == acc;
  }

  // ---------------------------------------------------------------- the softmax average

  /** What the first n keys weigh together, if key j weighs one. */
  function Relative(e: real -> real, score: seq<real>, scale: real, j: nat, n: nat): real
    requires n <= |score| && j < |score|
  {
    if n == 0 then 0.0 else Relative(e, score, scale, j, n - 1) + e(scale * (score[n - 1] - score[j]))
  }

  lemma {:induction false} RelativeIsMass(e: real -> real, score: seq<real>, scale: real, j: nat, n: nat)
    requires n <= |score| && j < |score|
    ensures Relative(e, score, scale, j, n) == Mass(e, score, scale, score[j] * scale, n)
  {
    if n > 0 {
      RelativeIsMass(e, score, scale, j, n - 1);
      Factor(score[n - 1], score[j], scale);
    }
  }

  lemma Factor(x: real, y: real, s: real)
    ensures s * (x - y) == x * s - y * s
  {
  }

  lemma RelativePositive(e: real -> real, score: seq<real>, scale: real, j: nat, n: nat)
    requires Exp2Like(e) && 0 < n <= |score| && j < |score|
    ensures Relative(e, score, scale, j, n) > 0.0
  {
    RelativeIsMass(e, score, scale, j, n);
    MassPositive(e, score, scale, score[j] * scale, n);
  }

  /** The first m summands of the average over the first n keys: each value counts by its
      key's share of the exponentials, relative to which all scores are taken. */
  function Average(e: real -> real, score: seq<real>, value: seq<real>, scale: real, n: nat, m: nat): real
    requires Exp2Like(e) && 0 < n <= |score| == |value| && m <= n
  {
    if m == 0 then 0.0
    else
      RelativePositive(e, score, scale, m - 1, n);
      Average(e, score, value, scale, n, m - 1) + value[m - 1] / Relative(e, score, scale, m - 1, n)
  }

  lemma {:induction false} AverageTimesMass(
    e: real -> real, score: seq<real>, value: seq<real>, scale: real, n: nat, m: nat, mass: real)
    requires Exp2Like(e) && 0 < n <= |score| == |value| && m <= n && mass == Mass(e, score, scale, 0.0, n)
    ensures Average(e, score, value, scale, n, m) * mass == WeightedSum(e, score, value, scale, 0.0, m)
  {
    hide Power, Relative, Mass;
    if m > 0 {
      var j := m - 1;
      AverageTimesMass(e, score, value, scale, n, j, mass);
      RelativePositive(e, score, scale, j, n);
      RelativeIsMass(e, score, scale, j, n);
      var r, p := Relative(e, score, scale, j, n), Power(e, Exponent(score, scale, j, 0.0));
      assert Exponent(score, scale, j, 0.0) == score[j] * scale - 0.0;
      ShiftMass(e, score, value, scale, score[j] * scale, 0.0, p, n);
      Cancel(value[j], r, p);
      OneSummand(Average(e, score, value, scale, n, j), value[j] / r, mass, p, value[j]);
    } else {
      NoMass(mass);
    }
  }

  lemma OneSummand(x: real, y: real, mass: real, p: real, v: real)
    requires y * mass == v * p
    ensures (x + y) * mass == x * mass + p * v
  {
  }

  lemma AttentionIsAverage(e: real -> real, score: seq<real>, value: seq<real>, scale: real, n: nat, o: real)
    requires Exp2Like(e) && 0 < n <= |score| == |value| && IsAttention(e, score, value, scale, n, o)
    ensures o == Average(e, score, value, scale, n, n)
  {
    hide Mass, WeightedSum, Average, Exp2Like;
    var mass := Mass(e, score, scale, 0.0, n);
    MassPositive(e, score, scale, 0.0, n);
    AverageTimesMass(e, score, value, scale, n, n, mass);
    SameFactor(o, Average(e, score, value, scale, n, n), mass);
  }

  lemma SameFactor(x: real, y: real, m: real)
    requires m > 0.0 && x * m == y * m
    ensures x == y
  {
    assert (x - y) * m == 0.0;
  }

  // ---------------------------------------------------------------- the kernel's loop

  /** The kernel's powers stay in range: no exponent it takes one of exceeds the gap. */
  function PowerInRange(e: real -> real, x: real): (r: real)
    requires x <= 8.0
    ensures r == Power(e, x)
  {
    e(x)
  }

  /** The row after the first n of its visible keys, relative to `ref`. */
  ghost predicate Accumulated(
    e: real -> real, score: seq<real>, value: seq<real>, scale: real, ref: real, n: nat, l: real, acc: real)
  {
    && n <= |score| == |value|
    && l == Mass(e, score, scale, ref, n) && acc == WeightedSum(e, score, value, scale, ref, n)
    && forall k :: 0 <= k < n ==> Exponent(score, scale, k, ref) <= MAX_GAP
  }

  /** Raising the reference rescales what has been accumulated. */
  lemma Rescaled(
    e: real -> real, score: seq<real>, value: seq<real>, scale: real, a: real, b: real, n: nat, l: real, acc: real,
    factor: real)
    requires Exp2Like(e) && Accumulated(e, score, value, scale, a, n, l, acc) && a <= b && factor == Power(e, a - b)
    ensures Accumulated(e, score, value, scale, b, n, l * factor, acc * factor)
  {
    hide Power, Mass, WeightedSum;
    ShiftMass(e, score, value, scale, a, b, factor, n);
    forall k | 0 <= k < n
      ensures Exponent(score, scale, k, b) <= MAX_GAP
    {
      assert Exponent(score, scale, k, a) <= MAX_GAP;
    }
  }

  lemma OneMore(
    e: real -> real, score: seq<real>, value: seq<real>, scale: real, ref: real, n: nat, l: real, acc: real, p: real)
    requires Accumulated(e, score, value, scale, ref, n, l, acc) && n < |score|
    requires Exponent(score, scale, n, ref) <= MAX_GAP && p == Power(e, Exponent(score, scale, n, ref))
    ensures Accumulated(e, score, value, scale, ref, n + 1, l + p, acc + p * value[n])
  {
    hide Power, Exponent;
  }

  lemma ScaledOrder(a: real, b: real, scale: real)
    requires a <= b && scale >= 0.0
    ensures a * scale <= b * scale
  {
    assert (b - a) * scale >= 0.0;
  }

  /** The largest visible score of a tile, if any key of it is visible. */
  method TileMaximum(score: seq<real>, start: nat, visible: nat, masked: bool, kvLen: nat)
    returns (any: bool, max: real)
    requires visible <= kvLen <= |score| && (!masked ==> start + TILE <= visible)
    ensures any <==> start < visible
    ensures forall k :: start <= k < start + TILE && k < visible ==> score[k] <= max
  {
    any, max := false, 0.0;
    for i := 0 to TILE
      invariant any <==> i > 0 && start < visible
      invariant forall k :: start <= k < start + i && k < visible ==> score[k] <= max
    {
      var key := start + i;
      if !masked || (key < visible && key < kvLen) {
        if !any || score[key] > max {
          any, max := true, score[key];
        }
      }
    }
  }

  /** Adds a tile's visible keys to the running sums. */
  method AddTile(
    e: real -> real, score: seq<real>, value: seq<real>, scale: real, ref: real,
    start: nat, visible: nat, masked: bool, kvLen: nat, l0: real, acc0: real)
    returns (l: real, acc: real)
    requires visible <= kvLen <= |score| == |value| && (!masked ==> start + TILE <= visible)
    requires Accumulated(e, score, value, scale, ref, Min(start, visible), l0, acc0)
    requires forall k :: start <= k < start + TILE && k < visible ==> Exponent(score, scale, k, ref) <= MAX_GAP
    ensures Accumulated(e, score, value, scale, ref, Min(start + TILE, visible), l, acc)
  {
    hide Accumulated, Power;
    l, acc := l0, acc0;
    for i := 0 to TILE
      invariant Accumulated(e, score, value, scale, ref, Min(start + i, visible), l, acc)
    {
      var key := start + i;
      if !masked || (key < visible && key < kvLen) {
        var x := score[key] * scale - ref;
        assert x == Exponent(score, scale, key, ref) <= MAX_GAP;
        var p := PowerInRange(e, x);
        OneMore(e, score, value, scale, ref, key, l, acc, p);
        l, acc := l + p, acc + p * value[key];
      }
    }
  }

  /** One query row of a tile.  Whatever the scores, and however often the reference is
      raised, the result is the softmax average over exactly the keys up to the row's own. */
  method AttendRow(
    e: real -> real, score: seq<real>, value: seq<real>, scale: real,
    seqLen: nat, queryLen: nat, group: pos, first: nat, warpStart: nat, row: nat)
    returns (o: real)
    requires Exp2Like(e) && scale >= 0.0 && |score| == |value| == seqLen
    requires 0 < queryLen <= seqLen && row < queryLen * group
    requires first <= warpStart <= row < warpStart + WARP_ROWS <= first + TILE
    ensures RowPosition(seqLen - queryLen, group, row) < seqLen
    ensures var n := RowPosition(seqLen - queryLen, group, row) + 1;
            IsAttention(e, score, value, scale, n, o) && o == Average(e, score, value, scale, n, n)
  {
    hide Accumulated, Power, Mass, WeightedSum, IsAttention, KvLen, RowPosition, Exponent, Average;
    RowSeesItself(seqLen, queryLen, group, first, row);
    var prefixLen := seqLen - queryLen;
    var visible := RowPosition(prefixLen, group, row) + 1;
    var kvLen := KvLen(seqLen, prefixLen, group, first);
    var ref, l, acc, start := 0.0, 0.0, 0.0, 0;
    NothingAccumulated(e, score, value, scale, ref);
    while start < kvLen
      invariant Accumulated(e, score, value, scale, ref, Min(start, visible), l, acc)
      decreases kvLen - start
    {
      var masked := NeedsMask(prefixLen, group, warpStart, start, kvLen);
      if !masked { UnmaskedIsVisible(prefixLen, group, warpStart, start, kvLen, row, start + TILE - 1); }
      var any, max := TileMaximum(score, start, visible, masked, kvLen);
      var newMax := max * scale;
      if start == 0 {
        NothingAccumulated(e, score, value, scale, newMax);
        NothingYet(e, score, value, scale, ref, l, acc);
        ref := newMax;
      } else if any && newMax > ref + MAX_GAP {
        var factor := PowerInRange(e, ref - newMax);
        Rescaled(e, score, value, scale, ref, newMax, Min(start, visible), l, acc, factor);
        acc, l, ref := acc * factor, l * factor, newMax;
      }
      forall k | start <= k < start + TILE && k < visible
        ensures Exponent(score, scale, k, ref) <= MAX_GAP
      {
        InTile(score, scale, k, ref, max);
      }
      l, acc := AddTile(e, score, value, scale, ref, start, visible, masked, kvLen, l, acc);
      start := start + TILE;
    }
    AccumulatedIs(e, score, value, scale, ref, visible, l, acc);
    o := acc / l;
    AttentionIsAverage(e, score, value, scale, visible, o);
  }

  lemma NothingAccumulated(e: real -> real, score: seq<real>, value: seq<real>, scale: real, ref: real)
    requires |score| == |value|
    ensures Accumulated(e, score, value, scale, ref, 0, 0.0, 0.0)
  {
  }

  lemma NothingYet(e: real -> real, score: seq<real>, value: seq<real>, scale: real, ref: real, l: real, acc: real)
    requires Accumulated(e, score, value, scale, ref, 0, l, acc)
    ensures l == acc == 0.0
  {
  }

  lemma InTile(score: seq<real>, scale: real, k: nat, ref: real, max: real)
    requires k < |score| && score[k] <= max && scale >= 0.0 && max * scale <= ref + MAX_GAP
    ensures Exponent(score, scale, k, ref) <= MAX_GAP
  {
    ScaledOrder(score[k], max, scale);
  }

  lemma AccumulatedIs(e: real -> real, score: seq<real>, value: seq<real>, scale: real, ref: real, n: nat, l: real,
    acc: real)
    requires Exp2Like(e) && n > 0 && Accumulated(e, score, value, scale, ref, n, l, acc)
    ensures l > 0.0 && IsAttention(e, score, value, scale, n, acc / l)
  {
    QuotientIsAttention(e, score, value, scale, ref, n, l, acc);
  }
}
