/** Sampling one row of logits: greedy, or top-k and top-p by rejection with a shrinking
    bracket.  Threads of a block are run one after the other; the float sums are exact. */
module Sampler {
  import opened Types
  import opened Arith
  import opened RowOrder
  import opened TopP

  // ---------------------------------------------------------------- one round's masses

  lemma LaneNext(n: nat, i: nat, stride: pos)
    ensures Lane(n, i, stride) == Group(n, i) + Lane(n, i + stride, stride)
  {
  }

  lemma RunStep(w: seq<real>, bound: real, a: nat, b: nat, r: real)
    requires a < b
    ensures MassOf(w, bound, Run(a, b)) == Weight(w, bound, a) + MassOf(w, bound, Run(a + 1, b))
    ensures Scan(w, bound, Run(a, b), r) ==
              if 0.0 <= r < Weight(w, bound, a) then a else Scan(w, bound, Run(a + 1, b), r - Weight(w, bound, a))
  {
    assert Run(a, b)[1..] == Run(a + 1, b);
  }

  /** One thread's share of the mass above the bound. */
  method ThreadMass(row: array<real>, bound: real, i0: nat, stride: pos) returns (mass: real)
    ensures mass == MassOf(row[..], bound, Lane(row.Length, i0, stride))
  {
    hide MassOf, Lane, Group, Weight;
    mass := 0.0;
    var i, n := i0, row.Length;
    ghost var w := row[..];
    ghost var all := MassOf(w, bound, Lane(n, i0, stride));
    while i < n
      modifies {}
      invariant mass + MassOf(w, bound, Lane(n, i, stride)) == all
      decreases n - i
    {
      LaneNext(n, i, stride);
      MassSplit(w, bound, Group(n, i), Lane(n, i + stride, stride));
      var group := GroupMass(row, bound, i);
      mass, i := mass + group, i + stride;
    }
    LaneDone(w, bound, n, i, stride);
  }

  lemma LaneDone(w: seq<real>, bound: real, n: nat, i: nat, stride: pos)
    requires i >= n
    ensures MassOf(w, bound, Lane(n, i, stride)) == 0.0
  {
  }

  /** The mass of four neighbours; positions past the end of the row count nothing. */
  method GroupMass(row: array<real>, bound: real, i: nat) returns (mass: real)
    requires i < row.Length
    ensures mass == MassOf(row[..], bound, Group(row.Length, i))
  {
    hide MassOf, Run;
    mass := 0.0;
    ghost var w, end := row[..], Min(i + GROUP, row.Length);
    for j := 0 to GROUP
      invariant mass + MassOf(w, bound, Run(Min(i + j, end), end)) == MassOf(w, bound, Run(i, end))
    {
      var x := if i + j < row.Length then row[i + j] else 0.0;
      if i + j < row.Length {
        RunStep(w, bound, i + j, end, 0.0);
      }
      mass := mass + if i + j < row.Length && x > bound then x else 0.0;
    }
    NoRun(w, bound, end);
  }

  lemma NoRun(w: seq<real>, bound: real, a: nat)
    ensures MassOf(w, bound, Run(a, a)) == 0.0
  {
  }

  /** masses[t] is the mass above the bound that thread t reads. */
  ghost predicate MassesOf(masses: seq<real>, w: seq<real>, bound: real, threads: pos) {
    |masses| == threads
    && forall t :: 0 <= t < threads ==> masses[t] == MassOf(w, bound, Lane(|w|, t * GROUP, threads * GROUP))
  }

  method ThreadMasses(row: array<real>, bound: real, threads: pos) returns (masses: array<real>)
    ensures fresh(masses) && masses.Length == threads && MassesOf(masses[..], row[..], bound, threads)
  {
    hide MassOf, Lane;
    masses := new real[threads](_ => 0.0);
    ghost var w := row[..];
    for t := 0 to threads
      invariant row[..] == w
      invariant forall s :: 0 <= s < t ==> masses[s] == MassOf(w, bound, Lane(|w|, s * GROUP, threads * GROUP))
    {
      masses[t] := ThreadMass(row, bound, t * GROUP, threads * GROUP);
    }
  }

  /** The sum over the block; it does not depend on how positions are dealt to threads. */
  method BlockSum(masses: array<real>, ghost w: seq<real>, ghost bound: real) returns (total: real)
    requires masses.Length > 0 && MassesOf(masses[..], w, bound, masses.Length)
    ensures total == MassAbove(w, bound)
  {
    hide MassOf, Lane, Order;
    total := 0.0;
    NoOrder(w, bound, masses.Length);
    for t := 0 to masses.Length
      invariant total == MassOf(w, bound, Order(|w|, masses.Length, t))
    {
      OrderStep(w, bound, masses.Length, t);
      assert masses[..][t] == masses[t];
      total := total + masses[t];
    }
    OrderMass(w, bound, |w|, masses.Length, masses.Length);
    OwnedByAll(w, bound, |w|, masses.Length);
  }

  lemma NoOrder(w: seq<real>, bound: real, threads: pos)
    ensures MassOf(w, bound, Order(|w|, threads, 0)) == 0.0
  {
  }

  lemma OrderStep(w: seq<real>, bound: real, threads: pos, t: nat)
    ensures MassOf(w, bound, Order(|w|, threads, t + 1)) ==
              MassOf(w, bound, Order(|w|, threads, t)) + MassOf(w, bound, Lane(|w|, t * GROUP, threads * GROUP))
  {
    MassSplit(w, bound, Order(|w|, threads, t), Lane(|w|, t * GROUP, threads * GROUP));
  }

  // ---------------------------------------------------------------- two-level inversion

  /** The first level: the thread in whose stretch the draw falls, and what is before it. */
  method FindBucket(masses: array<real>, u: real, ghost w: seq<real>, ghost bound: real)
    returns (bucket: int, before: real)
    requires masses.Length > 0 && MassesOf(masses[..], w, bound, masses.Length) && 0.0 <= bound
    ensures bucket == -1 ==> Scan(w, bound, Order(|w|, masses.Length, masses.Length), u) == -1
    ensures bucket != -1 ==>
              && 0 <= bucket < masses.Length
              && Scan(w, bound, Order(|w|, masses.Length, masses.Length), u)
                 == Scan(w, bound, Lane(|w|, bucket * GROUP, masses.Length * GROUP), u - before)
  {
    hide MassOf, Lane, Order, Scan;
    bucket, before := -1, 0.0;
    var prefix := 0.0;
    ghost var threads: pos := masses.Length;
    NoOrder(w, bound, threads);
    for t := 0 to masses.Length
      invariant prefix == MassOf(w, bound, Order(|w|, threads, t))
      invariant bucket == -1 ==> !(0.0 <= u < prefix)
      invariant bucket != -1 ==>
                  && 0 <= bucket < t && 0.0 <= u < prefix
                  && Scan(w, bound, Order(|w|, threads, t), u)
                     == Scan(w, bound, Lane(|w|, bucket * GROUP, threads * GROUP), u - before)
    {
      assert masses[..][t] == masses[t];
      LevelOne(w, bound, threads, t, u);
      if masses[t] > 0.0 && prefix <= u < prefix + masses[t] && bucket == -1 {
        bucket, before := t, prefix;
      }
      prefix := prefix + masses[t];
    }
    ScanHits(w, bound, Order(|w|, threads, threads), u);
    ScanIsNone(w, bound, Order(|w|, threads, threads), u);
  }

  lemma {:induction false} ScanIsNone(w: seq<real>, bound: real, xs: seq<nat>, r: real)
    ensures Scan(w, bound, xs, r) >= -1
    decreases |xs|
  {
    if xs != [] { ScanIsNone(w, bound, xs[1..], r - Weight(w, bound, xs[0])); }
  }

  lemma LevelOne(w: seq<real>, bound: real, threads: pos, t: nat, u: real)
    requires 0.0 <= bound
    ensures var a, b := Order(|w|, threads, t), Lane(|w|, t * GROUP, threads * GROUP);
            && MassOf(w, bound, Order(|w|, threads, t + 1)) == MassOf(w, bound, a) + MassOf(w, bound, b)
            && 0.0 <= MassOf(w, bound, a) && 0.0 <= MassOf(w, bound, b)
            && Scan(w, bound, Order(|w|, threads, t + 1), u)
               == if 0.0 <= u < MassOf(w, bound, a) then Scan(w, bound, a, u)
                   else Scan(w, bound, b, u - MassOf(w, bound, a))
  {
    hide Lane;
    var a, b := Order(|w|, threads, t), Lane(|w|, t * GROUP, threads * GROUP);
    OrderStep(w, bound, threads, t);
    ScanHits(w, bound, a, u);
    ScanHits(w, bound, b, u);
    ScanSplit(w, bound, a, b, u);
  }

  /** Four neighbours of the second level: takes the one in whose stretch the rest falls. */
  method TryGroup(row: array<real>, bound: real, i: nat, rest: real) returns (found: int, remaining: real)
    requires 0.0 <= bound
    ensures found == Scan(row[..], bound, Group(row.Length, i), rest)
    ensures remaining == rest - MassOf(row[..], bound, Group(row.Length, i))
  {
    hide MassOf, Run, Scan;
    found, remaining := -1, rest;
    ghost var w, end := row[..], Min(i + GROUP, row.Length);
    if row.Length <= i {
      EmptyRun(w, bound, i, end, rest);
      return;
    }
    for j := 0 to GROUP
      invariant remaining == rest - MassOf(w, bound, Run(i, end)) + MassOf(w, bound, Run(Min(i + j, end), end))
      invariant found == -1 ==>
                  Scan(w, bound, Run(i, end), rest) == Scan(w, bound, Run(Min(i + j, end), end), remaining)
      invariant found != -1 ==> found == Scan(w, bound, Run(i, end), rest) && remaining < 0.0
    {
      var x := if i + j < row.Length && row[i + j] > bound then row[i + j] else 0.0;
      if i + j < row.Length {
        RunStep(w, bound, i + j, end, remaining);
      }
      if remaining >= 0.0 && remaining < x {
        found := if found == -1 then i + j else Min(found, i + j);
      }
      remaining := remaining - x;
    }
    EmptyRun(w, bound, end, end, remaining);
  }

  lemma EmptyRun(w: seq<real>, bound: real, a: nat, b: nat, r: real)
    requires a >= b
    ensures MassOf(w, bound, Run(a, b)) == 0.0 && Scan(w, bound, Run(a, b), r) == -1
  {
  }

  /** The second level: the bucket's groups, dealt to the threads pass by pass. */
  method FindInBucket(row: array<real>, bound: real, bucket: nat, threads: pos, draw: real) returns (sampled: int)
    requires 0.0 <= bound
    ensures sampled == Scan(row[..], bound, Lane(row.Length, bucket * GROUP, threads * GROUP), draw)
  {
    hide MassOf, Lane, Group, Scan;
    sampled := -1;
    var rest, base, stride: pos := draw, bucket * GROUP, threads * GROUP;
    ghost var w, n := row[..], row.Length;
    ghost var all := Scan(w, bound, Lane(n, base, stride), draw);
    while base < row.Length && sampled == -1
      invariant sampled == -1 ==> Scan(w, bound, Lane(n, base, stride), rest) == all
      invariant sampled != -1 ==> sampled == all
      decreases row.Length - base
    {
      // one pass over the block: thread t takes the group at base + t * stride
      var i := base;
      for tid := 0 to threads
        invariant i >= base + tid
        invariant sampled == -1 ==> Scan(w, bound, Lane(n, i, stride), rest) == all
        invariant sampled != -1 ==> sampled == all && rest < 0.0
      {
        LaneNext(n, i, stride);
        ScanSplit(w, bound, Group(n, i), Lane(n, i + stride, stride), rest);
        ScanHits(w, bound, Group(n, i), rest);
        ScanIsNone(w, bound, Group(n, i), rest);
        var found, remaining := TryGroup(row, bound, i, rest);
        if found != -1 {
          sampled := if sampled == -1 then found else Min(sampled, found);
        }
        rest, i := remaining, i + stride;
      }
      base := i;
    }
    if sampled == -1 { NoLane(w, bound, n, base, stride, rest); }
  }

  lemma NoLane(w: seq<real>, bound: real, n: nat, i: nat, stride: pos, r: real)
    requires i >= n
    ensures Scan(w, bound, Lane(n, i, stride), r) == -1
  {
  }

  /** What a draw u selects among the weights above the bound; the row's maximum when it
      falls into no stretch at all. */
  ghost function Drawn(w: seq<real>, bound: real, threads: pos, best: nat, u: real): int {
    var x := Scan(w, bound, Order(|w|, threads, threads), u);
    if x == -1 then best else x
  }

  method Candidate(row: array<real>, bound: real, masses: array<real>, best: nat, u: real) returns (candidate: nat)
    requires masses.Length > 0 && MassesOf(masses[..], row[..], bound, masses.Length) && 0.0 <= bound
    requires best < row.Length
    ensures candidate < row.Length && candidate == Drawn(row[..], bound, masses.Length, best, u)
    ensures candidate == best || row[candidate] > bound
  {
    hide MassOf, Lane, Order, Scan;
    ghost var w, threads: pos := row[..], masses.Length;
    var sampled := -1;
    var bucket, before := FindBucket(masses, u, w, bound);
    if bucket != -1 {
      sampled := FindInBucket(row, bound, bucket, masses.Length, u - before);
    }
    ScanHits(w, bound, Order(|w|, threads, threads), u);
    ScanIsNone(w, bound, Order(|w|, threads, threads), u);
    candidate := if sampled == -1 then best else sampled;
  }

  /** A draw below the total always selects a position above the bound: each of them, the
      maximum included, exactly on a stretch as long as its weight. */
  lemma DrawnInProportion(w: seq<real>, bound: real, threads: pos, best: nat, i: nat) returns (c: real)
    requires 0.0 <= bound && best < |w| && i < |w| && w[i] > bound
    ensures 0.0 <= c && c + w[i] <= MassAbove(w, bound)
    ensures forall u: real :: 0.0 <= u < MassAbove(w, bound) ==>
              (Drawn(w, bound, threads, best, u) == i <==> c <= u < c + w[i])
  {
    hide MassOf, Scan, Order, OwnedBelow;
    var xs := Order(|w|, threads, threads);
    OrderMass(w, bound, |w|, threads, threads);
    OwnedByAll(w, bound, |w|, threads);
    var k := PlaceOf(w, threads, i);
    c := MassOf(w, bound, xs[..k]);
    Stretch(w, bound, xs, k);
    forall u: real | 0.0 <= u < MassAbove(w, bound)
      ensures Drawn(w, bound, threads, best, u) == i <==> c <= u < c + w[i]
    {
      ScanInterval(w, bound, xs, k, u);
      ScanHits(w, bound, xs, u);
    }
  }

  /** Where the block comes upon position i, which happens once. */
  lemma PlaceOf(w: seq<real>, threads: pos, i: nat) returns (k: nat)
    requires i < |w|
    ensures var xs := Order(|w|, threads, threads);
            k < |xs| && xs[k] == i && forall a, b :: 0 <= a < b < |xs| ==> xs[a] != xs[b]
  {
    hide Order;
    var xs := Order(|w|, threads, threads);
    OrderOnce(|w|, threads, threads, i);
    assert i in multiset(xs);
    k :| 0 <= k < |xs| && xs[k] == i;
    forall a, b | 0 <= a < b < |xs|
      ensures xs[a] != xs[b]
    {
      OrderOnce(|w|, threads, threads, xs[a]);
      if xs[a] == xs[b] { CountTwice(xs, a, b); }
    }
  }

  lemma Stretch(w: seq<real>, bound: real, xs: seq<nat>, k: nat)
    requires 0.0 <= bound && k < |xs|
    ensures var c := MassOf(w, bound, xs[..k]);
            0.0 <= c && c + Weight(w, bound, xs[k]) <= MassOf(w, bound, xs)
  {
    hide Weight, Scan;
    ScanHits(w, bound, xs[..k], 0.0);
    ScanHits(w, bound, xs[k + 1..], 0.0);
    MassSplit(w, bound, xs[..k], xs[k..]);
    assert xs == xs[..k] + xs[k..] && xs[k..][1..] == xs[k + 1..];
  }

  // ---------------------------------------------------------------- rejection

  /** The bracket: what is above `high` falls short of the target, what is above `low` does
      not; so the whole nucleus is above `low`. */
  ghost predicate Bracket(w: seq<real>, target: real, low: real, high: real) {
    0.0 <= low < high <= 1.0 && MassAbove(w, high) < target <= MassAbove(w, low)
  }

  lemma NucleusAboveLow(w: seq<real>, best: nat, target: real, low: real, high: real, i: nat)
    requires Weights(w, best) && Bracket(w, target, low, high) && InNucleus(w, target, i)
    ensures w[i] > low
  {
    hide MassAbove;
    if w[i] <= low { MassBelow(w, w[i], low); }
  }

  /** A rejected candidate moves the bracket, and one weight at least leaves it for good. */
  lemma RejectShrinks(w: seq<real>, best: nat, target: real, low: real, high: real, x: nat)
    requires Weights(w, best) && Bracket(w, target, low, high)
    requires x < |w| && (x == best || w[x] > low) && MassAbove(w, w[x]) >= target
    ensures low < w[x] < high
    ensures var mid := (w[x] + high) * 0.5;
            && w[x] < mid < high
            && (if MassAbove(w, mid) < target then Bracket(w, target, w[x], mid) else Bracket(w, target, mid, high))
            && CountUpTo(w, w[x], |w|) < CountUpTo(w, low, |w|)
            && CountUpTo(w, mid, |w|) < CountUpTo(w, low, |w|)
  {
    hide MassUpTo, CountUpTo;
    if w[x] >= high { MassBelow(w, high, w[x]); }
    CountShrinks(w, low, w[x], x, |w|);
    CountShrinks(w, low, (w[x] + high) * 0.5, x, |w|);
  }

  lemma StartBracket(w: seq<real>, best: nat, target: real)
    requires Weights(w, best) && 0.0 < target <= MassAbove(w, 0.0)
    ensures Bracket(w, target, 0.0, 1.0)
  {
    NothingAbove(w, 1.0, |w|);
  }

  lemma DrawnAbove(w: seq<real>, bound: real, threads: pos, best: nat, u: real)
    requires 0.0 <= bound && best < |w|
    ensures var x := Drawn(w, bound, threads, best, u);
            0 <= x < |w| && (x == best || w[x] > bound)
  {
    hide Order, Scan;
    ScanHits(w, bound, Order(|w|, threads, threads), u);
    ScanIsNone(w, bound, Order(|w|, threads, threads), u);
  }

  /** The candidate of a round whose low end is `low`. */
  ghost function RoundDraw(w: seq<real>, best: nat, threads: pos, low: real, u: real): (x: nat)
    requires 0.0 <= low && best < |w|
    ensures x < |w| && (x == best || w[x] > low)
  {
    DrawnAbove(w, low, threads, best, u);
    Drawn(w, low, threads, best, u)
  }

  /** The token of the rounds from `round` on: the first candidate that is in the nucleus,
      each drawn from what the bracket has left. */
  ghost function FirstAccepted(
    w: seq<real>, best: nat, target: real, threads: pos, uniform: nat -> real, low: real, high: real, round: nat): nat
    requires Weights(w, best) && Bracket(w, target, low, high)
    decreases CountUpTo(w, low, |w|)
  {
    hide CountUpTo, MassAbove, Drawn;
    var x := RoundDraw(w, best, threads, low, uniform(round));
    var mid := (w[x] + high) * 0.5;
    if MassAbove(w, w[x]) < target then x
    else
      RejectShrinks(w, best, target, low, high, x);
      if MassAbove(w, mid) < target
      then FirstAccepted(w, best, target, threads, uniform, w[x], mid, round + 1)
      else FirstAccepted(w, best, target, threads, uniform, mid, high, round + 1)
  }

  lemma {:induction false} AcceptedInNucleus(
    w: seq<real>, best: nat, target: real, threads: pos, uniform: nat -> real, low: real, high: real, round: nat)
    requires Weights(w, best) && Bracket(w, target, low, high)
    ensures InNucleus(w, target, FirstAccepted(w, best, target, threads, uniform, low, high, round))
    decreases CountUpTo(w, low, |w|)
  {
    hide CountUpTo, MassAbove, Drawn;
    var x := RoundDraw(w, best, threads, low, uniform(round));
    var mid := (w[x] + high) * 0.5;
    if MassAbove(w, w[x]) >= target {
      RejectShrinks(w, best, target, low, high, x);
      if MassAbove(w, mid) < target {
        AcceptedInNucleus(w, best, target, threads, uniform, w[x], mid, round + 1);
      } else {
        AcceptedInNucleus(w, best, target, threads, uniform, mid, high, round + 1);
      }
    }
  }

  /** What rejection is for: whatever the bracket, a round ends the search at each position
      of the nucleus, the maximum included, exactly on a stretch as long as its weight.  So
      the rounds do not change the proportions inside the nucleus. */
  lemma RoundAccepts(w: seq<real>, best: nat, target: real, threads: pos, low: real, high: real, i: nat)
    returns (c: real)
    requires Weights(w, best) && Bracket(w, target, low, high) && InNucleus(w, target, i)
    ensures 0.0 <= c && c + w[i] <= MassAbove(w, low)
    ensures forall u: real :: 0.0 <= u < MassAbove(w, low) ==>
              (RoundDraw(w, best, threads, low, u) == i <==> c <= u < c + w[i])
    ensures forall uniform: nat -> real, round: nat :: c <= uniform(round) < c + w[i] ==>
              FirstAccepted(w, best, target, threads, uniform, low, high, round) == i
  {
    hide MassAbove, Drawn;
    NucleusAboveLow(w, best, target, low, high, i);
    c := DrawnInProportion(w, low, threads, best, i);
    forall uniform: nat -> real, round: nat | c <= uniform(round) < c + w[i]
      ensures FirstAccepted(w, best, target, threads, uniform, low, high, round) == i
    {
      assert RoundDraw(w, best, threads, low, uniform(round)) == i;
    }
  }

  ghost function NucleusToken(w: seq<real>, best: nat, topP: real, threads: pos, uniform: nat -> real): nat
    requires Weights(w, best) && 0.0 < topP <= 1.0
  {
    TargetReached(w, best, topP);
    StartBracket(w, best, topP * MassAbove(w, 0.0));
    FirstAccepted(w, best, topP * MassAbove(w, 0.0), threads, uniform, 0.0, 1.0, 0)
  }

  /** What the draws select of a row. */
  ghost function TokenOf(w: seq<real>, best: nat, topP: real, threads: pos, uniform: nat -> real): int
    requires Weights(w, best) && 0.0 < topP <= 1.0
  {
    if topP < 1.0 then NucleusToken(w, best, topP, threads, uniform) else Drawn(w, 0.0, threads, best, uniform(0))
  }

  /** Samples a position of the row; `uniform` gives the draw of each round. */
  method SampleRow(row: array<real>, best: nat, topP: real, uniform: nat -> real, threads: pos) returns (token: nat)
    requires Weights(row[..], best) && 0.0 < topP <= 1.0
    ensures token < row.Length
    ensures token == TokenOf(row[..], best, topP, threads, uniform)
    ensures topP < 1.0 ==> InTopP(row[..], topP, token)
    ensures row[token] > 0.0
  {
    hide MassUpTo, CountUpTo, MassesOf, Drawn, Bracket, MassAbove;
    ghost var w := row[..];
    var low, high, round := 0.0, 1.0, 0;
    var masses := ThreadMasses(row, low, threads);
    var total := BlockSum(masses, w, low);
    var target := topP * total;
    TargetReached(w, best, topP);
    StartBracket(w, best, target);
    AcceptedInNucleus(w, best, target, threads, uniform, 0.0, 1.0, 0);
    while true
      invariant row[..] == w && masses.Length == threads && MassesOf(masses[..], w, low, threads)
      invariant round == 0 ==> low == 0.0
      invariant Bracket(w, target, low, high) && 0.0 <= low
      invariant topP == 1.0 ==> round == 0
      invariant FirstAccepted(w, best, target, threads, uniform, low, high, round)
                == NucleusToken(w, best, topP, threads, uniform)
      decreases CountUpTo(w, low, |w|)
    {
      var candidate := Candidate(row, low, masses, best, uniform(round));
      if topP == 1.0 {
        return candidate;
      }
      var pivot := row[candidate];
      var midpoint := (pivot + high) * 0.5;
      var abovePivot := ThreadMasses(row, pivot, threads);
      var aboveMid := ThreadMasses(row, midpoint, threads);
      var pivotMass := BlockSum(abovePivot, w, pivot);
      var midMass := BlockSum(aboveMid, w, midpoint);
      if pivotMass < target {
        return candidate;
      }
      RejectShrinks(w, best, target, low, high, candidate);
      if midMass < target {
        low, high, masses := pivot, midpoint, abovePivot;
      } else {
        low, masses := midpoint, aboveMid;
      }
      round := round + 1;
    }
  }

  /** The largest weight is 1, so there is a positive total to take a share of. */
  lemma TargetReached(w: seq<real>, best: nat, topP: real)
    requires Weights(w, best) && 0.0 < topP <= 1.0
    ensures 0.0 < topP * MassAbove(w, 0.0) <= MassAbove(w, 0.0)
  {
    var total := MassAbove(w, 0.0);
    OneOfThem(w, best, |w|);
    Share(topP, total);
  }

  lemma Share(p: real, total: real)
    requires 0.0 < p <= 1.0 && total > 0.0
    ensures 0.0 < p * total <= total
  {
    assert (1.0 - p) * total >= 0.0;
  }

  lemma {:induction false} OneOfThem(w: seq<real>, best: nat, n: nat)
    requires Weights(w, best) && n <= |w|
    ensures MassUpTo(w, 0.0, n) >= if best < n then 1.0 else 0.0
  {
    if n > 0 { OneOfThem(w, best, n - 1); }
  }
}
