/** Counting in units of a variable size. */
module Arith {
  import opened Types

  function Min(a: int, b: int): int { if a <= b then a else b }

  function Max(a: int, b: int): int { if a <= b then b else a }

  /** How many units of size d it takes to hold n. */
  function CeilDiv(n: nat, d: pos): nat
  {
    (n + d - 1) / d
  }

  /** The size of n units.  Written as a sum so that it stays linear; see SpanIsProduct. */
  function Span(d: pos, n: nat): nat {
    if n == 0 then 0 else Span(d, n - 1) + d
  }

  lemma {:induction false} SpanIsProduct(d: pos, n: nat)
    ensures Span(d, n) == n * d
  {
    if n > 0 { SpanIsProduct(d, n - 1); }
  }

  lemma {:induction false} SpanGrows(d: pos, a: nat, b: nat)
    requires a <= b
    ensures Span(d, a) <= Span(d, b)
    ensures a < b ==> Span(d, a) + d <= Span(d, b)
    decreases b
  {
    if a < b { SpanGrows(d, a, b - 1); }
  }

  lemma DivMod(n: nat, d: pos)
    ensures n == n / d * d + n % d && 0 <= n % d < d && n / d >= 0
  {
  }

  lemma {:induction false} DivUnique(n: nat, d: int, q: nat, r: nat)
    requires r < d && n == q * d + r
    ensures n / d == q && n % d == r
  {
    DivMod(n, d);
    var q' := n / d;
    if q' < q { MulStep(q', q, d); }
    if q < q' { MulStep(q, q', d); }
  }

  lemma Distributes(a: nat, b: nat, d: nat)
    ensures (a + b) * d == a * d + b * d
  {
  }

  lemma MulStep(a: nat, b: nat, d: pos)
    requires a < b
    ensures a * d + d <= b * d
  {
    SpanIsProduct(d, a);
    SpanIsProduct(d, b);
    SpanGrows(d, a, b);
  }

  lemma CeilDivBounds(n: nat, d: pos)
    ensures n <= Span(d, CeilDiv(n, d)) < n + d
  {
    DivMod(n + d - 1, d);
    SpanIsProduct(d, CeilDiv(n, d));
  }

  lemma CeilDivLeast(n: nat, d: pos, q: nat)
    requires n <= Span(d, q)
    ensures CeilDiv(n, d) <= q
  {
    CeilDivBounds(n, d);
    if q < CeilDiv(n, d) { SpanGrows(d, q, CeilDiv(n, d)); }
  }

  /** The division algorithm in units: n lies in unit n / d. */
  lemma InUnit(n: nat, d: pos)
    ensures n == Span(d, n / d) + n % d && n % d < d
  {
    DivMod(n, d);
    SpanIsProduct(d, n / d);
  }

  lemma UnitRest(n: nat, d: pos, q: nat, r: nat)
    requires r < d && n == Span(d, q) + r
    ensures n / d == q && n % d == r
  {
    SpanIsProduct(d, q);
    DivUnique(n, d, q, r);
  }

  /** n is inside the first q units exactly when its own unit is. */
  lemma DivBelow(n: nat, d: pos, q: nat)
    ensures n / d < q <==> n < Span(d, q)
  {
    InUnit(n, d);
    if n / d < q { SpanGrows(d, n / d, q); }
    if q <= n / d { SpanGrows(d, q, n / d); }
  }

  /** Position p lies at offset RestOf of unit UnitOf. */
  function UnitOf(d: pos, p: nat): nat {
    if p < d then 0 else UnitOf(d, p - d) + 1
  }

  function RestOf(d: pos, p: nat): nat {
    if p < d then p else RestOf(d, p - d)
  }

  lemma {:induction false} Position(d: pos, p: nat)
    ensures p == Span(d, UnitOf(d, p)) + RestOf(d, p) && RestOf(d, p) < d
  {
    if p >= d {
      Position(d, p - d);
    }
  }

  lemma UnitIsDiv(d: pos, p: nat)
    ensures UnitOf(d, p) == p / d && RestOf(d, p) == p % d
  {
    Position(d, p);
    UnitRest(p, d, UnitOf(d, p), RestOf(d, p));
  }

  lemma UnitBelow(d: pos, p: nat, q: nat)
    ensures UnitOf(d, p) < q <==> p < Span(d, q)
  {
    Position(d, p);
    if UnitOf(d, p) < q { SpanGrows(d, UnitOf(d, p), q); } else { SpanGrows(d, q, UnitOf(d, p)); }
  }

  /** An element that occurs at two places is counted twice. */
  lemma CountTwice(t: seq<nat>, i: nat, j: nat)
    requires i < j < |t| && t[i] == t[j]
    ensures multiset(t)[t[i]] >= 2
  {
    assert t == t[..j] + t[j..];
    assert t[i] in t[..j] && t[j] in t[j..];
    assert multiset(t) == multiset(t[..j]) + multiset(t[j..]);
    assert multiset(t[..j])[t[i]] >= 1 && multiset(t[j..])[t[i]] >= 1;
  }
}
