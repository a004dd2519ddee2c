/** The sampler from logits to token: row maximum, cutoff, weights, and the draw. */
module SampleLogits {
  import opened Types
  import opened Bits
  import opened Bf16
  import opened ArgMax
  import opened RadixTopK
  import opened TopP
  import opened Sampler

  /** Minus infinity, the padding behind the row. */
  const LOWEST: Word := 0xff80

  /** Not NaN: up to infinity in size. */
  predicate IsNumber(bits: Word) {
    bits <= 0x7f80 || 0x8000 <= bits <= LOWEST
  }

  ghost predicate Numbers(row: seq<Word>) {
    forall i :: 0 <= i < |row| ==> IsNumber(row[i])
  }

  lemma NoneLower(bits: Word)
    requires IsNumber(bits)
    ensures Value(LOWEST) <= Value(bits)
  {
    hide Magnitude, Value, And;
    ValueIs(LOWEST);
    ValueIs(bits);
    MagnitudeZero();
    var m := if bits < 0x8000 then bits else bits - 0x8000;
    if m < 0x7f80 { MagnitudeGrows(m, 0x7f80); }
    MagnitudeGrows(0, 0x7f80);
  }

  ghost function Values(row: seq<Word>): (vs: seq<int>)
    ensures |vs| == |row| && forall i :: 0 <= i < |row| ==> vs[i] == Value(row[i])
  {
    seq(|row|, i requires 0 <= i < |row| => Value(row[i]))
  }

  ghost predicate LeftmostMaximum(row: seq<Word>, r: Range) {
    && r.index < |row| && r.high == Value(row[r.index])
    && (forall i :: 0 <= i < |row| ==> Value(row[i]) <= r.high)
    && (forall i :: 0 <= i < r.index ==> Value(row[i]) < r.high)
  }

  /** t holds the numbers of row[from..to], and padding. */
  ghost predicate TreeOf(t: Tree, row: seq<Word>, from: nat, to: nat) {
    && (forall k :: from <= k < to && k < |row| ==> Holds(t, Range(Value(row[k]), k)))
    && (forall r :: Holds(t, r) ==>
          (r.index < |row| && r.high == Value(row[r.index])) || (r.index >= |row| && r.high == Value(LOWEST)))
  }

  lemma TreesJoin(a: Tree, b: Tree, row: seq<Word>, from: nat, mid: nat, to: nat)
    requires TreeOf(a, row, from, mid) && TreeOf(b, row, mid, to)
    ensures TreeOf(Node(a, b), row, from, to)
  {
    hide Value;
  }

  /** One tile, reduced; `nothing` is an index no row reaches. */
  method TileMaximum(row: seq<Word>, from: nat, tileSize: pos, nothing: nat) returns (range: Range, ghost t: Tree)
    requires nothing >= |row|
    ensures Reduce(t) == range && TreeOf(t, row, from, from + tileSize)
  {
    hide Value;
    range := Range(Value(LOWEST), nothing);
    t := Leaf(range);
    for j := 0 to tileSize
      invariant Reduce(t) == range && TreeOf(t, row, from, from + j)
    {
      var value := if from + j < |row| then Value(row[from + j]) else Value(LOWEST);
      var one := Range(value, from + j);
      range := Merge(range, one);
      TreesJoin(t, Leaf(one), row, from, from + j, from + j + 1);
      t := Node(t, Leaf(one));
    }
  }

  method RowMaximum(row: seq<Word>, tileSize: pos, nothing: nat) returns (range: Range)
    requires row != [] && nothing >= |row| && Numbers(row)
    ensures LeftmostMaximum(row, range)
  {
    hide Value, Holds;
    range := Range(Value(LOWEST), nothing);
    ghost var t := Leaf(range);
    var from := 0;
    EmptyTree(row, nothing);
    while from < |row|
      invariant Reduce(t) == range && TreeOf(t, row, 0, from)
    {
      ghost var tt;
      var tile;
      tile, tt := TileMaximum(row, from, tileSize, nothing);
      range := Merge(range, tile);
      TreesJoin(t, tt, row, 0, from, from + tileSize);
      t, from := Node(t, tt), from + tileSize;
    }
    TreeCovers(t, row, from);
    ReduceIsLeftmostMaximum(t, Values(row), Value(LOWEST));
  }

  lemma EmptyTree(row: seq<Word>, nothing: nat)
    requires nothing >= |row|
    ensures TreeOf(Leaf(Range(Value(LOWEST), nothing)), row, 0, 0)
  {
  }

  lemma TreeCovers(t: Tree, row: seq<Word>, to: nat)
    requires TreeOf(t, row, 0, to) && to >= |row| && Numbers(row)
    ensures Covers(t, Values(row), Value(LOWEST))
    ensures forall i :: 0 <= i < |row| ==> Value(LOWEST) <= Values(row)[i]
  {
    hide Value;
    forall i | 0 <= i < |row|
      ensures Value(LOWEST) <= Values(row)[i]
    {
      NoneLower(row[i]);
    }
  }

  // ---------------------------------------------------------------- weights

  /** What is used of the exponential: positive, growing, and one at zero. */
  ghost predicate ExpLike(exp: real -> real) {
    exp(0.0) == 1.0 && forall x: real, y: real :: x <= y ==> 0.0 < exp(x) <= exp(y)
  }

  function Apply(exp: real -> real, x: real): real {
    exp(x)
  }

  /** How far x is below the maximum, at the given temperature. */
  function Shift(x: int, high: int, temperature: real): real
    requires temperature > 0.0
  {
    (Real(x) - Real(high)) * (1.0 / temperature)
  }

  /** The unnormalised probability of a logit. */
  function Softmax(exp: real -> real, x: int, high: int, cutoff: int, temperature: real): real
    requires temperature > 0.0
  {
    if x == high then 1.0
    else if x >= cutoff then Apply(exp, Shift(x, high, temperature))
    else 0.0
  }

  ghost predicate WeightsOf(w: seq<real>, row: seq<Word>, exp: real -> real, high: int, cutoff: int, temperature: real)
    requires temperature > 0.0
  {
    |w| == |row| && forall i :: 0 <= i < |row| ==> w[i] == Softmax(exp, Value(row[i]), high, cutoff, temperature)
  }

  /** The kernel's two ways to compute it. */
  function Shifted(x: real, high: real, inv: real, scaledMax: real, temperature: real): real {
    if temperature >= 1.0 then x * inv - scaledMax else (x - high) * inv
  }

  lemma ShiftedIs(x: int, high: int, inv: real, scaledMax: real, temperature: real)
    requires temperature > 0.0 && inv == 1.0 / temperature && scaledMax == Real(high) * inv
    ensures Shifted(Real(x), Real(high), inv, scaledMax, temperature) == Shift(x, high, temperature)
  {
    hide Real;
  }

  /** A weight is at most one, positive exactly if the logit makes the cutoff, and grows with it. */
  lemma SoftmaxIs(exp: real -> real, x: int, y: int, high: int, cutoff: int, temperature: real)
    requires ExpLike(exp) && temperature > 0.0 && x <= y <= high && cutoff <= high
    ensures 0.0 <= Softmax(exp, x, high, cutoff, temperature) <= Softmax(exp, y, high, cutoff, temperature) <= 1.0
    ensures Softmax(exp, x, high, cutoff, temperature) > 0.0 <==> x >= cutoff
  {
    hide Shift;
    ShiftOrder(x, y, high, temperature);
    assert exp(Shift(x, high, temperature)) <= exp(Shift(y, high, temperature)) <= exp(0.0);
  }

  /** The weight of a logit that makes the cutoff is the exponential of its distance from the
      maximum, in units of the temperature. */
  lemma SoftmaxFormula(exp: real -> real, x: int, high: int, cutoff: int, temperature: real)
    requires ExpLike(exp) && temperature > 0.0 && cutoff <= x <= high
    ensures Softmax(exp, x, high, cutoff, temperature) ==
              exp((x - high) as real / (Pow2(133) as real * temperature))
  {
    hide Pow2;
    ShiftFormula(x as real, high as real, Pow2(133) as real, temperature);
  }

  lemma ShiftFormula(a: real, b: real, d: real, t: real)
    requires d > 0.0 && t > 0.0
    ensures (a / d - b / d) * (1.0 / t) == (a - b) / (d * t)
    ensures a == b ==> (a - b) / (d * t) == 0.0
  {
    var u, v, i := a / d, b / d, 1.0 / t;
    assert u * d == a && v * d == b && i * t == 1.0;
    Regrouped(u, v, i, d, t);
    DivideBy(a - b, d * t, (u - v) * i);
    if a == b { DivideBy(0.0, d * t, 0.0); }
  }

  lemma Regrouped(u: real, v: real, i: real, d: real, t: real)
    requires i * t == 1.0
    ensures (u - v) * i * (d * t) == u * d - v * d
  {
    assert (u - v) * i * (d * t) == (u - v) * d * (i * t);
  }

  /** A higher temperature gives every logit below the maximum more weight. */
  lemma WarmerIsFlatter(exp: real -> real, x: int, high: int, cutoff: int, cold: real, warm: real)
    requires ExpLike(exp) && 0.0 < cold <= warm && x <= high
    ensures Softmax(exp, x, high, cutoff, cold) <= Softmax(exp, x, high, cutoff, warm)
  {
    hide Shift, Real;
    WarmerIsNearer(x, high, cold, warm);
    assert exp(Shift(x, high, cold)) <= exp(Shift(x, high, warm));
  }

  lemma WarmerIsNearer(x: int, high: int, cold: real, warm: real)
    requires 0.0 < cold <= warm && x <= high
    ensures Shift(x, high, cold) <= Shift(x, high, warm)
  {
    Divided(x, high, Pow2(133));
    var gap := Real(high) - Real(x);
    hide Real;
    InverseOrder(cold, warm);
    assert gap * (1.0 / cold - 1.0 / warm) >= 0.0;
  }

  lemma InverseOrder(a: real, b: real)
    requires 0.0 < a <= b
    ensures 1.0 / b <= 1.0 / a
  {
    assert 1.0 / a - 1.0 / b == (b - a) / (a * b);
  }

  lemma ShiftOrder(x: int, y: int, high: int, temperature: real)
    requires x <= y <= high && temperature > 0.0
    ensures Shift(x, high, temperature) <= Shift(y, high, temperature) <= 0.0
  {
    Divided(x, y, Pow2(133));
    Divided(y, high, Pow2(133));
    var a, b, inv := Real(x) - Real(high), Real(y) - Real(high), 1.0 / temperature;
    hide Real;
    assert (b - a) * inv >= 0.0;
    assert (0.0 - b) * inv >= 0.0;
  }

  lemma Divided(x: int, y: int, d: nat)
    requires x <= y && d > 0
    ensures x as real / d as real <= y as real / d as real
  {
  }

  method FillWeights(row: seq<Word>, exp: real -> real, high: int, cutoff: int, temperature: real)
    returns (w: array<real>)
    requires temperature > 0.0
    ensures fresh(w) && w.Length == |row| && WeightsOf(w[..], row, exp, high, cutoff, temperature)
  {
    hide Value, Real, Shift, Shifted, Apply;
    w := new real[|row|](_ => 0.0);
    var inv := 1.0 / temperature;
    var scaledMax := Real(high) * inv;
    for i := 0 to |row|
      invariant forall k :: 0 <= k < i ==> w[k] == Softmax(exp, Value(row[k]), high, cutoff, temperature)
    {
      var x := Value(row[i]);
      ShiftedIs(x, high, inv, scaledMax, temperature);
      var shifted := Shifted(Real(x), Real(high), inv, scaledMax, temperature);
      w[i] := if x == high then 1.0 else if x >= cutoff then Apply(exp, shifted) else 0.0;
    }
  }

  // ---------------------------------------------------------------- the whole row

  /** The cutoff is the k-th largest logit; without a proper k nothing is cut off. */
  ghost predicate CutoffOk(row: seq<Word>, topK: int, cutoff: int) {
    if 1 <= topK < |row| then IsKthLargest(row, topK, cutoff)
        else forall i :: 0 <= i < |row| ==> cutoff <= Value(row[i])
  }

  method SelectCutoff(row: seq<Word>, topK: int, range: Range, tileSize: pos) returns (cutoff: int)
    requires LeftmostMaximum(row, range) && Numbers(row)
    ensures cutoff <= range.high && CutoffOk(row, topK, cutoff)
  {
    hide Value;
    cutoff := Value(LOWEST);
    forall i | 0 <= i < |row|
      ensures Value(LOWEST) <= Value(row[i])
    {
      NoneLower(row[i]);
    }
    if topK == 1 {
      cutoff := range.high;
      MaximumIsFirst(row, range, |row|);
      assert row[..|row|] == row;
    } else if 1 < topK < |row| {
      var bits := Cutoff(row, topK, tileSize);
      cutoff := Value(bits);
    }
  }

  lemma {:induction false} MaximumIsFirst(row: seq<Word>, r: Range, n: nat)
    requires LeftmostMaximum(row, r) && n <= |row|
    ensures Above(row[..n], r.high) == 0 && AtLeast(row[..n], r.high) >= if r.index < n then 1 else 0
  {
    hide Value;
    if n > 0 {
      MaximumIsFirst(row, r, n - 1);
      assert row[..n][..n - 1] == row[..n - 1];
    }
  }

  /** The weights as the temperature and the cutoff prescribe them. */
  ghost predicate Tempered(w: seq<real>, row: seq<Word>, exp: real -> real, high: int, cutoff: int, temperature: real)
    requires temperature > 0.0
  {
    |w| == |row| && forall i :: 0 <= i < |row| ==>
      w[i] == if Value(row[i]) < cutoff then 0.0
              else exp((Value(row[i]) - high) as real / (Pow2(133) as real * temperature))
  }

  lemma WeightsAreTempered(
    w: seq<real>, row: seq<Word>, exp: real -> real, range: Range, cutoff: int, temperature: real)
    requires ExpLike(exp) && temperature > 0.0 && LeftmostMaximum(row, range) && cutoff <= range.high
    requires WeightsOf(w, row, exp, range.high, cutoff, temperature)
    ensures Tempered(w, row, exp, range.high, cutoff, temperature)
  {
    hide Value, Shift, Pow2, ExpLike;
    forall i | 0 <= i < |row|
      ensures w[i] == if Value(row[i]) < cutoff then 0.0
                      else exp((Value(row[i]) - range.high) as real / (Pow2(133) as real * temperature))
    {
      if Value(row[i]) >= cutoff { SoftmaxFormula(exp, Value(row[i]), range.high, cutoff, temperature); }
    }
  }

  /** The token is the one that the draws select from the weights; it is among the k largest
      logits and in the nucleus of their probabilities. */
  ghost predicate Candidate(
    row: seq<Word>, params: SampleParams, exp: real -> real, uniform: nat -> real, threads: pos, cutoff: int,
    range: Range, w: seq<real>, token: nat)
  {
    && token < |row| && params.temperature > 0.0 && LeftmostMaximum(row, range)
    && CutoffOk(row, params.topK, cutoff) && Value(row[token]) >= cutoff
    && Tempered(w, row, exp, range.high, cutoff, params.temperature)
    && (params.topP < 1.0 ==> InTopP(w, params.topP, token))
    && Weights(w, range.index) && 0.0 < params.topP <= 1.0
    && token == TokenOf(w, range.index, params.topP, threads, uniform)
  }

  /** One row: greedily at temperature zero; otherwise a token among the k largest logits
      that lies in the nucleus of their probabilities. */
  method Sample(row: seq<Word>, params: SampleParams, exp: real -> real, uniform: nat -> real, tileSize: pos,
    threads: pos)
    returns (token: nat)
    requires row != [] && Numbers(row) && ExpLike(exp) && params.temperature >= 0.0 && 0.0 < params.topP <= 1.0
    ensures token < |row|
    ensures params.temperature == 0.0 ==> LeftmostMaximum(row, Range(Value(row[token]), token))
    ensures params.temperature > 0.0 ==>
              exists cutoff: int, range: Range, w: seq<real> ::
                Candidate(row, params, exp, uniform, threads, cutoff, range, w, token)
  {
    hide Value, CutoffOk, InTopP, TokenOf, LeftmostMaximum, WeightsOf, Tempered, Numbers, ExpLike, Softmax,
         Weights;
    var range := RowMaximum(row, tileSize, |row|);
    if params.temperature == 0.0 {
      MaximumAt(row, range);
      return range.index;
    }
    var cutoff := SelectCutoff(row, params.topK, range, tileSize);
    var w := FillWeights(row, exp, range.high, cutoff, params.temperature);
    AreWeights(row, exp, range, cutoff, params.temperature, w[..]);
    WeightsAreTempered(w[..], row, exp, range, cutoff, params.temperature);
    token := SampleRow(w, range.index, params.topP, uniform, threads);
    PositiveMakesCutoff(row, exp, range, cutoff, params.temperature, w[..], token);
    assert Candidate(row, params, exp, uniform, threads, cutoff, range, w[..], token);
  }

  lemma PositiveMakesCutoff(
    row: seq<Word>, exp: real -> real, range: Range, cutoff: int, temperature: real, w: seq<real>, i: nat)
    requires ExpLike(exp) && temperature > 0.0 && LeftmostMaximum(row, range) && cutoff <= range.high
    requires WeightsOf(w, row, exp, range.high, cutoff, temperature) && i < |w| && w[i] > 0.0
    ensures Value(row[i]) >= cutoff
  {
    hide Value, Softmax, ExpLike;
    SoftmaxIs(exp, Value(row[i]), range.high, range.high, cutoff, temperature);
  }

  lemma MaximumAt(row: seq<Word>, range: Range)
    requires LeftmostMaximum(row, range)
    ensures range.index < |row| && range == Range(Value(row[range.index]), range.index)
  {
  }

  lemma AreWeights(row: seq<Word>, exp: real -> real, range: Range, cutoff: int, temperature: real, w: seq<real>)
    requires ExpLike(exp) && temperature > 0.0 && LeftmostMaximum(row, range) && cutoff <= range.high
    requires WeightsOf(w, row, exp, range.high, cutoff, temperature)
    ensures Weights(w, range.index)
  {
    hide Value, Softmax, ExpLike;
    forall i | 0 <= i < |w|
      ensures 0.0 <= w[i] <= 1.0
    {
      SoftmaxIs(exp, Value(row[i]), range.high, range.high, cutoff, temperature);
    }
    BestWeighsOne(exp, range.high, cutoff, temperature);
  }

  lemma BestWeighsOne(exp: real -> real, high: int, cutoff: int, temperature: real)
    requires temperature > 0.0
    ensures Softmax(exp, high, high, cutoff, temperature) == 1.0
  {
  }
}
