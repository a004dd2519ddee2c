/** Weighted sampling over exact reals: the mass above a bound, the nucleus, and inversion of
    the cumulative weights in the order in which a thread block walks the row. */
module TopP {
  import opened Types
  import opened RowOrder

  /** The weight of position x, if it is above the bound. */
  function Weight(w: seq<real>, bound: real, x: nat): real {
    if x < |w| && w[x] > bound then w[x] else 0.0
  }

  function MassUpTo(w: seq<real>, bound: real, n: nat): real {
    if n == 0 then 0.0 else MassUpTo(w, bound, n - 1) + Weight(w, bound, n - 1)
  }

  function MassAbove(w: seq<real>, bound: real): real {
    MassUpTo(w, bound, |w|)
  }

  function MassOf(w: seq<real>, bound: real, xs: seq<nat>): real {
    if xs == [] then 0.0 else Weight(w, bound, xs[0]) + MassOf(w, bound, xs[1..])
  }

  ghost predicate Weights(w: seq<real>, best: nat) {
    && best < |w| && w[best] == 1.0
    && forall i :: 0 <= i < |w| ==> 0.0 <= w[i] <= 1.0
  }

  // ---------------------------------------------------------------- masses

  lemma {:induction false} MassSplit(w: seq<real>, bound: real, a: seq<nat>, b: seq<nat>)
    ensures MassOf(w, bound, a + b) == MassOf(w, bound, a) + MassOf(w, bound, b)
  {
    if a == [] {
      assert a + b == b;
    } else {
      assert (a + b)[1..] == a[1..] + b;
      MassSplit(w, bound, a[1..], b);
    }
  }

  /** The mass of the positions below n that thread t reads. */
  function OwnedBy(w: seq<real>, bound: real, n: nat, threads: pos, t: nat): real {
    if n == 0 then 0.0
    else OwnedBy(w, bound, n - 1, threads, t) + if Owner(n - 1, threads) == t then Weight(w, bound, n - 1) else 0.0
  }

  function OwnedBelow(w: seq<real>, bound: real, n: nat, threads: pos, t: nat): real {
    if n == 0 then 0.0
    else OwnedBelow(w, bound, n - 1, threads, t) + if Owner(n - 1, threads) < t then Weight(w, bound, n - 1) else 0.0
  }

  lemma {:induction false} LaneMass(w: seq<real>, bound: real, n: nat, threads: pos, t: nat)
    requires t < threads
    ensures MassOf(w, bound, Lane(n, t * GROUP, threads * GROUP)) == OwnedBy(w, bound, n, threads, t)
  {
    hide Lane, Owner, InLane;
    if n == 0 {
      LaneEmpty(t * GROUP, threads * GROUP);
    } else {
      LaneMass(w, bound, n - 1, threads, t);
      LaneGrows(n - 1, t * GROUP, threads * GROUP);
      OwnerOwns(n - 1, threads, t);
      MassSplit(w, bound, Lane(n - 1, t * GROUP, threads * GROUP), [n - 1]);
      assert [n - 1][1..] == [];
      assert Lane(n - 1, t * GROUP, threads * GROUP) + [] == Lane(n - 1, t * GROUP, threads * GROUP);
    }
  }

  lemma {:induction false} OwnedStep(w: seq<real>, bound: real, n: nat, threads: pos, t: nat)
    ensures OwnedBelow(w, bound, n, threads, t + 1)
              == OwnedBelow(w, bound, n, threads, t) + OwnedBy(w, bound, n, threads, t)
  {
    hide Owner;
    if n > 0 { OwnedStep(w, bound, n - 1, threads, t); }
  }

  lemma {:induction false} OwnedByNone(w: seq<real>, bound: real, n: nat, threads: pos)
    ensures OwnedBelow(w, bound, n, threads, 0) == 0.0
  {
    hide Owner;
    if n > 0 { OwnedByNone(w, bound, n - 1, threads); }
  }

  lemma {:induction false} OwnedByAll(w: seq<real>, bound: real, n: nat, threads: pos)
    ensures OwnedBelow(w, bound, n, threads, threads) == MassUpTo(w, bound, n)
  {
    hide Owner;
    if n > 0 {
      OwnedByAll(w, bound, n - 1, threads);
      OwnerOwns(n - 1, threads, 0);
    }
  }

  lemma {:induction false} OrderMass(w: seq<real>, bound: real, n: nat, threads: pos, t: nat)
    requires t <= threads
    ensures MassOf(w, bound, Order(n, threads, t)) == OwnedBelow(w, bound, n, threads, t)
    decreases t
  {
    hide Lane, OwnedBelow, OwnedBy;
    if t == 0 {
      OwnedByNone(w, bound, n, threads);
    } else {
      OrderMass(w, bound, n, threads, t - 1);
      OwnedStep(w, bound, n, threads, t - 1);
      LaneMass(w, bound, n, threads, t - 1);
      MassSplit(w, bound, Order(n, threads, t - 1), Lane(n, (t - 1) * GROUP, threads * GROUP));
    }
  }

  lemma {:induction false} MassMonotone(w: seq<real>, a: real, b: real, n: nat)
    requires forall i :: 0 <= i < |w| ==> 0.0 <= w[i]
    requires a <= b
    ensures MassUpTo(w, b, n) <= MassUpTo(w, a, n)
  {
    if n > 0 { MassMonotone(w, a, b, n - 1); }
  }

  lemma {:induction false} NothingAbove(w: seq<real>, bound: real, n: nat)
    requires forall i :: 0 <= i < |w| ==> w[i] <= bound
    ensures MassUpTo(w, bound, n) == 0.0
  {
    if n > 0 { NothingAbove(w, bound, n - 1); }
  }

  /** How many weights are above the bound. */
  function CountUpTo(w: seq<real>, bound: real, n: nat): nat {
    if n == 0 then 0 else CountUpTo(w, bound, n - 1) + if n <= |w| && w[n - 1] > bound then 1 else 0
  }

  lemma {:induction false} CountShrinks(w: seq<real>, a: real, b: real, x: nat, n: nat)
    requires a <= b
    ensures CountUpTo(w, b, n) <= CountUpTo(w, a, n)
    ensures x < n <= |w| && a < w[x] <= b ==> CountUpTo(w, b, n) < CountUpTo(w, a, n)
  {
    if n > 0 { CountShrinks(w, a, b, x, n - 1); }
  }

  // ---------------------------------------------------------------- the nucleus

  /** The share of the total mass that top-p asks for. */
  /** The weights larger than w[i] do not reach the target by themselves. */
  ghost predicate InNucleus(w: seq<real>, target: real, i: nat) {
    i < |w| && MassAbove(w, w[i]) < target
  }

  /** What a share topP of the whole mass cuts off. */
  ghost predicate InTopP(w: seq<real>, topP: real, i: nat) {
    InNucleus(w, topP * MassAbove(w, 0.0), i)
  }

  /** The nucleus is the part of the row above some bound, its mass reaches the target, and
      it would no longer do so without its smallest weights. */
  lemma NucleusIs(w: seq<real>, target: real)
    requires w != [] && (forall i :: 0 <= i < |w| ==> 0.0 <= w[i]) && 0.0 < target <= MassAbove(w, 0.0)
    ensures exists bound: real ::
              && (forall i: nat :: i < |w| ==> (InNucleus(w, target, i) <==> w[i] > bound))
              && MassAbove(w, bound) >= target
              && forall i: nat :: i < |w| && w[i] > bound ==> MassAbove(w, w[i]) < target
  {
    hide MassAbove;
    if forall i: nat :: i < |w| && w[i] > 0.0 ==> InNucleus(w, target, i) {
      forall i: nat | i < |w|
        ensures InNucleus(w, target, i) <==> w[i] > 0.0
      {
        if w[i] <= 0.0 { MassBelow(w, w[i], 0.0); }
      }
    } else {
      var i: nat :| i < |w| && w[i] > 0.0 && !InNucleus(w, target, i);
      var k := LargestOutside(w, target, i, |w|);
      forall j: nat | j < |w|
        ensures InNucleus(w, target, j) <==> w[j] > w[k]
      {
        if w[j] <= w[k] { MassBelow(w, w[j], w[k]); }
      }
    }
  }

  lemma MassBelow(w: seq<real>, a: real, b: real)
    requires (forall i :: 0 <= i < |w| ==> 0.0 <= w[i]) && a <= b
    ensures MassAbove(w, b) <= MassAbove(w, a)
  {
    MassMonotone(w, a, b, |w|);
  }

  lemma {:induction false} LargestOutside(w: seq<real>, target: real, i: nat, n: nat) returns (k: nat)
    requires i < |w| && n <= |w| && !InNucleus(w, target, i)
    ensures k < |w| && !InNucleus(w, target, k) && w[k] >= w[i]
    ensures forall j: nat :: j < n && w[j] > w[k] ==> InNucleus(w, target, j)
  {
    hide MassAbove;
    if n == 0 {
      k := i;
    } else {
      k := LargestOutside(w, target, i, n - 1);
      if w[n - 1] > w[k] && !InNucleus(w, target, n - 1) { k := n - 1; }
    }
  }

  // ---------------------------------------------------------------- inversion

  /** The position whose stretch of the cumulative weights contains r, or -1. */
  function Scan(w: seq<real>, bound: real, xs: seq<nat>, r: real): int {
    if xs == [] then -1
    else if 0.0 <= r < Weight(w, bound, xs[0]) then xs[0]
    else Scan(w, bound, xs[1..], r - Weight(w, bound, xs[0]))
  }

  lemma {:induction false} ScanHits(w: seq<real>, bound: real, xs: seq<nat>, r: real)
    requires 0.0 <= bound
    ensures 0.0 <= MassOf(w, bound, xs)
    ensures Scan(w, bound, xs, r) >= 0 <==> 0.0 <= r < MassOf(w, bound, xs)
    ensures Scan(w, bound, xs, r) >= 0 ==> Scan(w, bound, xs, r) < |w| && w[Scan(w, bound, xs, r)] > bound
    decreases |xs|
  {
    if xs != [] { ScanHits(w, bound, xs[1..], r - Weight(w, bound, xs[0])); }
  }

  lemma {:induction false} ScanSplit(w: seq<real>, bound: real, a: seq<nat>, b: seq<nat>, r: real)
    ensures Scan(w, bound, a + b, r) ==
              if Scan(w, bound, a, r) >= 0 then Scan(w, bound, a, r) else Scan(w, bound, b, r - MassOf(w, bound, a))
    decreases |a|
  {
    if a == [] {
      assert a + b == b;
    } else {
      assert (a + b)[1..] == a[1..] + b;
      ScanSplit(w, bound, a[1..], b, r - Weight(w, bound, a[0]));
    }
  }

  /** Position xs[k] is drawn exactly on a stretch as long as its weight. */
  lemma {:induction false} ScanInterval(w: seq<real>, bound: real, xs: seq<nat>, k: nat, r: real)
    requires 0.0 <= bound && k < |xs| && Weight(w, bound, xs[k]) > 0.0
    requires forall i, j :: 0 <= i < j < |xs| ==> xs[i] != xs[j]
    ensures var c := MassOf(w, bound, xs[..k]);
            Scan(w, bound, xs, r) == xs[k] <==> c <= r < c + Weight(w, bound, xs[k])
    decreases |xs|
  {
    var e, rest := Weight(w, bound, xs[0]), xs[1..];
    ScanHits(w, bound, rest, r - e);
    if k == 0 {
      ScanMember(w, bound, rest, r - e);
    } else {
      ScanInterval(w, bound, rest, k - 1, r - e);
      assert xs[..k][1..] == rest[..k - 1];
      ScanHits(w, bound, rest[..k - 1], 0.0);
    }
  }

  lemma {:induction false} ScanMember(w: seq<real>, bound: real, xs: seq<nat>, r: real)
    ensures Scan(w, bound, xs, r) >= 0 ==> exists k :: 0 <= k < |xs| && xs[k] == Scan(w, bound, xs, r)
    decreases |xs|
  {
    if xs != [] {
      ScanMember(w, bound, xs[1..], r - Weight(w, bound, xs[0]));
      var s := Scan(w, bound, xs[1..], r - Weight(w, bound, xs[0]));
      if s >= 0 {
        var k :| 0 <= k < |xs[1..]| && xs[1..][k] == s;
        assert xs[k + 1] == s;
      }
    }
  }
}
