/** How a thread block walks a row: thread t of T reads the groups t, t + T, t + 2T, ... of
    four weights.  Listing the threads one after the other visits every position once. */
module RowOrder {
  import opened Types
  import opened Arith

  const GROUP: pos := 4

  function Run(a: nat, b: nat): (r: seq<nat>)
    decreases b - a
  {
    if a >= b then [] else [a] + Run(a + 1, b)
  }

  function Group(n: nat, i: nat): seq<nat> {
    Run(i, Min(i + GROUP, n))
  }

  /** The positions below n of the groups i, i + stride, i + 2 stride, ... */
  function Lane(n: nat, i: nat, stride: pos): seq<nat>
    decreases n - i
  {
    if i >= n then [] else Group(n, i) + Lane(n, i + stride, stride)
  }

  /** The lanes of threads 0, ..., t - 1 one after the other. */
  function Order(n: nat, threads: pos, t: nat): seq<nat> {
    if t == 0 then [] else Order(n, threads, t - 1) + Lane(n, (t - 1) * GROUP, threads * GROUP)
  }

  predicate InLane(x: nat, i: nat, stride: pos)
    decreases x - i
  {
    if x < i then false else if x < i + GROUP then true else InLane(x, i + stride, stride)
  }

  /** The thread that reads position x. */
  function Owner(x: nat, threads: pos): nat {
    if x < threads * GROUP then x / GROUP else Owner(x - threads * GROUP, threads)
  }

  lemma {:induction false} RunSnoc(a: nat, b: nat)
    requires a <= b
    ensures Run(a, b + 1) == Run(a, b) + [b]
    decreases b - a
  {
    if a < b { RunSnoc(a + 1, b); }
  }

  /** One more position in the row is one more position in the lane it belongs to. */
  lemma {:induction false} LaneGrows(n: nat, i: nat, stride: pos)
    requires stride >= GROUP
    ensures Lane(n + 1, i, stride) == Lane(n, i, stride) + if InLane(n, i, stride) then [n] else []
    decreases n - i
  {
    if n >= i {
      LaneGrows(n, i + stride, stride);
      if n < i + GROUP {
        RunSnoc(i, n);
      }
    }
  }

  lemma {:induction false} InLaneShift(x: nat, i: nat, d: nat, stride: pos)
    requires d <= x
    ensures InLane(x, i + d, stride) == InLane(x - d, i, stride)
    decreases x - i
  {
    if x >= i + d + GROUP { InLaneShift(x, i + stride, d, stride); }
  }

  lemma {:induction false} OwnerOwns(x: nat, threads: pos, t: nat)
    requires t < threads
    ensures Owner(x, threads) < threads
    ensures InLane(x, t * GROUP, threads * GROUP) <==> t == Owner(x, threads)
  {
    var stride := threads * GROUP;
    if x >= stride {
      OwnerOwns(x - stride, threads, t);
      InLaneShift(x, t * GROUP, stride, stride);
    }
  }

  /** Every position below n is visited exactly once, no other ever. */
  lemma {:induction false} OrderOnce(n: nat, threads: pos, t: nat, x: nat)
    requires t <= threads
    ensures Owner(x, threads) < threads
    ensures multiset(Order(n, threads, t))[x] == if x < n && Owner(x, threads) < t then 1 else 0
  {
    hide Lane, InLane, Owner;
    OwnerOwns(x, threads, 0);
    if t > 0 {
      OrderOnce(n, threads, t - 1, x);
      OrderNext(n, threads, t, x);
      LaneOnce(n, (t - 1) * GROUP, threads * GROUP, x);
      OwnerOwns(x, threads, t - 1);
    }
  }

  lemma {:induction false} LaneOnce(n: nat, i: nat, stride: pos, x: nat)
    requires stride >= GROUP
    ensures multiset(Lane(n, i, stride))[x] == if x < n && InLane(x, i, stride) then 1 else 0
  {
    hide Lane, InLane;
    if n == 0 {
      LaneEmpty(i, stride);
    } else {
      LaneOnce(n - 1, i, stride, x);
      LaneGrows(n - 1, i, stride);
      GrownOnce(Lane(n - 1, i, stride), Lane(n, i, stride), n - 1, InLane(n - 1, i, stride), x);
    }
  }

  lemma LaneEmpty(i: nat, stride: pos)
    ensures Lane(0, i, stride) == []
  {
  }

  lemma OrderNext(n: nat, threads: pos, t: nat, x: nat)
    requires t > 0
    ensures multiset(Order(n, threads, t))[x] ==
              multiset(Order(n, threads, t - 1))[x] + multiset(Lane(n, (t - 1) * GROUP, threads * GROUP))[x]
  {
    hide Lane;
    var a, b := Order(n, threads, t - 1), Lane(n, (t - 1) * GROUP, threads * GROUP);
    assert multiset(a + b) == multiset(a) + multiset(b);
  }

  lemma GrownOnce(a: seq<nat>, b: seq<nat>, y: nat, more: bool, x: nat)
    requires b == a + if more then [y] else []
    ensures multiset(b)[x] == multiset(a)[x] + if more && x == y then 1 else 0
  {
    if more { assert multiset(b) == multiset(a) + multiset{y}; } else { assert b == a; }
  }

  // ---------------------------------------------------------------- in the kernel's terms

  lemma {:induction false} OwnerIs(x: nat, threads: pos)
    ensures Owner(x, threads) == x / 4 % threads
  {
    if x >= threads * GROUP {
      OwnerIs(x - threads * GROUP, threads);
      assert (x - threads * GROUP) / 4 == x / 4 - threads;
      ModShift(x / 4, threads);
    } else {
      DivUnique(x / 4, threads, 0, x / 4);
    }
  }

  lemma ModShift(n: nat, d: pos)
    requires n >= d
    ensures (n - d) % d == n % d
  {
    DivMod(n - d, d);
    var q := (n - d) / d;
    Distributes(q, 1, d);
    DivUnique(n, d, q + 1, (n - d) % d);
  }

  lemma {:induction false} LaneAscends(n: nat, i: nat, stride: pos)
    requires stride >= GROUP
    ensures forall a :: 0 <= a < |Lane(n, i, stride)| ==> Lane(n, i, stride)[a] < n
    ensures forall a, b :: 0 <= a < b < |Lane(n, i, stride)| ==> Lane(n, i, stride)[a] < Lane(n, i, stride)[b]
  {
    hide Lane, InLane;
    if n == 0 {
      LaneEmpty(i, stride);
    } else {
      LaneAscends(n - 1, i, stride);
      LaneGrows(n - 1, i, stride);
    }
  }

  /** Thread t reads exactly the positions of the groups of four that are dealt to it round
      robin, from the front of the row to its end. */
  lemma ThreadReads(n: nat, threads: pos, t: nat, x: nat)
    requires t < threads
    ensures var lane := Lane(n, t * 4, threads * 4);
            && (x in lane <==> x < n && x / 4 % threads == t)
            && forall a, b :: 0 <= a < b < |lane| ==> lane[a] < lane[b]
  {
    hide Lane, InLane, Owner;
    var lane: seq<nat> := Lane(n, t * GROUP, threads * GROUP);
    LaneOnce(n, t * GROUP, threads * GROUP, x);
    assert x in multiset(lane) <==> x in lane;
    OwnerOwns(x, threads, t);
    OwnerIs(x, threads);
    LaneAscends(n, t * GROUP, threads * GROUP);
  }
}
