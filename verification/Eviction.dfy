/** Eviction takes the block that has been unused the longest: over every sequence of calls of
    the cache manager, and so over every run of the engine, the free list is sorted by the
    time since which its blocks are unused. */
module Eviction {
  import opened Types
  import opened BlockStore
  import opened CachePool
  import opened PoolInvariant
  import opened FreeOrder

  // ---------------------------------------------------------------- calls of the manager

  datatype Call =
    | Reuse(id: Id, tokens: seq<Token>)
    | Allocate(id: Id, tokens: seq<Token>, computed: nat, n: nat)
    | GiveBack(id: Id, tokens: seq<Token>, computed: nat)

  ghost predicate CallOk(c: Config, p: Pool, call: Call) {
    && PoolInBounds(p)
    && match call
       case Reuse(id, tokens) => tokens != [] && id !in p.tables
       case Allocate(id, tokens, computed, n) => computed <= |tokens| && NumMissing(c, p, id, computed + n) >= 0
       case GiveBack(id, tokens, computed) =>
         computed <= |tokens|
         && (id in p.tables ==>
               Referenced(CacheFullBlocks(c, p.store, p.tables[id], tokens, computed), p.tables[id]))
  }

  ghost function Called(c: Config, p: Pool, call: Call): Pool
    requires CallOk(c, p, call)
  {
    match call
    case Reuse(id, tokens) => ReusePrefix(c, p, id, tokens).0
    case Allocate(id, tokens, computed, n) => AllocateSlots(c, p, id, tokens, computed, n).0
    case GiveBack(id, tokens, computed) => ReleaseBlocks(c, p, id, tokens, computed)
  }

  ghost predicate Move(c: Config, p: Pool, p': Pool) {
    exists call :: CallOk(c, p, call) && p' == Called(c, p, call)
  }

  ghost predicate Sound(c: Config, p: Pool) {
    PoolOk(p) && |p.store.blocks| == c.numBlocks
  }

  /** Each pool of a trace results from the one before it by one call. */
  ghost predicate Trace(c: Config, ps: seq<Pool>) {
    && ps != [] && (forall k :: 0 <= k < |ps| ==> Sound(c, ps[k]))
    && (forall k :: 1 <= k < |ps| ==> Move(c, ps[k - 1], ps[k]))
  }

  // ---------------------------------------------------------------- the age of a free block

  ghost predicate Unused(p: Pool, b: nat) {
    b < |p.store.blocks| && p.store.blocks[b].refs == 0
  }

  /** The pool of the trace from which on b has been unused. */
  ghost function Since(ps: seq<Pool>, b: nat): (k: nat)
    requires ps != []
    ensures k < |ps|
  {
    if |ps| == 1 || !Unused(ps[|ps| - 2], b) then |ps| - 1 else Since(ps[..|ps| - 1], b)
  }

  lemma {:induction false} SinceIs(ps: seq<Pool>, b: nat)
    requires ps != [] && Unused(ps[|ps| - 1], b)
    ensures forall j :: Since(ps, b) <= j < |ps| ==> Unused(ps[j], b)
    ensures Since(ps, b) > 0 ==> !Unused(ps[Since(ps, b) - 1], b)
  {
    hide Unused;
    if |ps| > 1 && Unused(ps[|ps| - 2], b) {
      var front := ps[..|ps| - 1];
      assert front[|front| - 1] == ps[|ps| - 2];
      SinceIs(front, b);
      assert forall j :: 0 <= j < |front| ==> front[j] == ps[j];
    }
  }

  /** The free list is sorted by age, the oldest first; blocks that were never used come in
      the order of their numbers. */
  ghost predicate OldestFirst(ps: seq<Pool>)
    requires ps != []
  {
    var free := ps[|ps| - 1].store.free;
    forall i, j :: 0 <= i < j < |free| ==>
      Since(ps, free[i]) <= Since(ps, free[j]) && (Since(ps, free[j]) == 0 ==> free[i] < free[j])
  }

  lemma FreeIsUnused(p: Pool, b: nat)
    requires PoolOk(p)
    ensures b in p.store.free <==> Unused(p, b)
  {
    hide IndexOk;
    assert b in p.store.free <==> multiset(p.store.free)[b] > 0;
  }

  // ---------------------------------------------------------------- what a call does to the list

  /** at[i] tells where the i-th element of xs' stood in xs; what follows was not there. */
  ghost predicate Queued(xs: seq<nat>, xs': seq<nat>, at: seq<nat>) {
    && |at| <= |xs'| && (forall i :: 0 <= i < |at| ==> at[i] < |xs| && xs'[i] == xs[at[i]])
    && (forall i, j :: 0 <= i < j < |at| ==> at[i] < at[j])
    && (forall i :: |at| <= i < |xs'| ==> xs'[i] !in xs)
  }

  lemma {:induction false} ExceptQueued(xs: seq<nat>, bs: seq<nat>) returns (at: seq<nat>)
    ensures Queued(xs, Except(xs, bs), at) && |at| == |Except(xs, bs)|
  {
    hide Except, Queued;
    if xs == [] {
      NothingExcept(bs);
      at := SuffixQueued([], 0);
    } else {
      var x, ys := xs[0], xs[1..];
      var rest := ExceptQueued(ys, bs);
      ExceptFirst(xs, bs);
      assert xs == [x] + ys;
      if x in bs {
        assert [] + Except(ys, bs) == Except(ys, bs);
        at := QueuedBehind(x, ys, Except(ys, bs), rest);
      } else {
        var later := QueuedBehind(x, ys, Except(ys, bs), rest);
        at := QueuedFirst(x, ys, Except(ys, bs), later);
      }
    }
  }

  lemma QueuedBehind(x: nat, xs: seq<nat>, ys: seq<nat>, at: seq<nat>) returns (at': seq<nat>)
    requires Queued(xs, ys, at) && |at| == |ys|
    ensures Queued([x] + xs, ys, at') && |at'| == |ys| && forall i :: 0 <= i < |at'| ==> at'[i] > 0
  {
    at' := seq(|at|, i requires 0 <= i < |at| => at[i] + 1);
  }

  lemma QueuedFirst(x: nat, xs: seq<nat>, ys: seq<nat>, at: seq<nat>) returns (at': seq<nat>)
    requires Queued([x] + xs, ys, at) && |at| == |ys| && forall i :: 0 <= i < |at| ==> at[i] > 0
    ensures Queued([x] + xs, [x] + ys, at') && |at'| == |ys| + 1
  {
    at' := [0] + at;
    forall i | 0 <= i < |at'|
      ensures at'[i] < |[x] + xs| && ([x] + ys)[i] == ([x] + xs)[at'[i]]
    {
      if i > 0 { assert at'[i] == at[i - 1] && ([x] + ys)[i] == ys[i - 1]; }
    }
  }

  lemma SuffixQueued(xs: seq<nat>, m: nat) returns (at: seq<nat>)
    requires m <= |xs|
    ensures Queued(xs, xs[m..], at) && |at| == |xs[m..]|
  {
    at := seq(|xs| - m, i => m + i);
  }

  lemma AppendQueued(xs: seq<nat>, ys: seq<nat>) returns (at: seq<nat>)
    requires forall y :: y in ys ==> y !in xs
    ensures Queued(xs, xs + ys, at)
  {
    at := seq(|xs|, i => i);
  }

  /** Every call takes blocks out of the list, or appends blocks that were not in it. */
  lemma MoveQueues(c: Config, p: Pool, p': Pool) returns (at: seq<nat>)
    requires Move(c, p, p') && Sound(c, p) && Sound(c, p')
    ensures Queued(p.store.free, p'.store.free, at)
  {
    hide PoolOk, PoolInBounds, ReusePrefix, AllocateSlots, ReleaseBlocks, Referenced, Queued, Except;
    var call :| CallOk(c, p, call) && p' == Called(c, p, call);
    match call {
      case Reuse(id, tokens) =>
        ReuseLeavesRest(c, p, id, tokens);
        at := ExceptQueued(p.store.free, Table(p', id));
      case Allocate(id, tokens, computed, n) =>
        AllocateTakesHead(c, p, id, tokens, computed, n);
        var missing := NumMissing(c, p, id, computed + n);
        at := SuffixQueued(p.store.free, if missing <= |p.store.free| then missing else 0);
        assert p.store.free[0..] == p.store.free;
      case GiveBack(id, tokens, computed) =>
        at := GiveBackQueues(c, p, id, tokens, computed);
    }
  }

  lemma GiveBackQueues(c: Config, p: Pool, id: Id, tokens: seq<Token>, computed: nat) returns (at: seq<nat>)
    requires CallOk(c, p, GiveBack(id, tokens, computed)) && PoolOk(p)
    requires PoolOk(ReleaseBlocks(c, p, id, tokens, computed))
    ensures Queued(p.store.free, ReleaseBlocks(c, p, id, tokens, computed).store.free, at)
  {
    hide PoolOk, PoolInBounds, ReleaseBlocks, Referenced, Queued, CacheFullBlocks, Given;
    if id in p.tables {
      ReleaseAppends(c, p, id, tokens, computed);
      var given := Given(p.store, p.tables[id], |p.tables[id]|);
      forall y | y in given
        ensures y !in p.store.free
      {
        GivenNotFree(p, ReleaseBlocks(c, p, id, tokens, computed), given, y);
      }
      at := AppendQueued(p.store.free, given);
    } else {
      ReleaseNothing(c, p, id, tokens, computed);
      at := AppendQueued(p.store.free, []);
      assert p.store.free + [] == p.store.free;
    }
  }

  lemma ReleaseNothing(c: Config, p: Pool, id: Id, tokens: seq<Token>, computed: nat)
    requires PoolInBounds(p) && computed <= |tokens| && id !in p.tables
    ensures ReleaseBlocks(c, p, id, tokens, computed) == p
  {
  }

  lemma GivenNotFree(p: Pool, p': Pool, given: seq<nat>, b: nat)
    requires PoolOk(p') && p'.store.free == p.store.free + given && b in given
    ensures b !in p.store.free
  {
    hide IndexOk;
    assert multiset(p'.store.free) == multiset(p.store.free) + multiset(given);
    assert multiset(given)[b] > 0 && multiset(p'.store.free)[b] <= 1;
    assert b in p.store.free <==> multiset(p.store.free)[b] > 0;
  }

  // ---------------------------------------------------------------- the law

  lemma CallKeepsOldest(c: Config, ps: seq<Pool>, p': Pool)
    requires Trace(c, ps) && Sound(c, p') && Move(c, ps[|ps| - 1], p') && OldestFirst(ps)
    ensures OldestFirst(ps + [p'])
  {
    hide Move, PoolOk, Unused;
    var p, ps' := ps[|ps| - 1], ps + [p'];
    assert ps'[..|ps'| - 1] == ps;
    var free, free' := p.store.free, p'.store.free;
    var at := MoveQueues(c, p, p');
    forall i | 0 <= i < |free'|
      ensures Since(ps', free'[i]) == if i < |at| then Since(ps, free'[i]) else |ps|
    {
      FreeIsUnused(p, free'[i]);
    }
  }

  lemma {:induction false} TraceOldest(c: Config, ps: seq<Pool>)
    requires Trace(c, ps) && ps[0].store == Fresh(c.numBlocks)
    ensures OldestFirst(ps)
  {
    hide Move, Sound, OldestFirst;
    if |ps| == 1 {
      FreshOldest(c, ps);
    } else {
      var front, last := ps[..|ps| - 1], ps[|ps| - 1];
      TraceOldest(c, front);
      assert Move(c, ps[|ps| - 1 - 1], ps[|ps| - 1]);
      CallKeepsOldest(c, front, last);
      assert ps == front + [last];
    }
  }

  lemma FreshOldest(c: Config, ps: seq<Pool>)
    requires |ps| == 1 && ps[0].store == Fresh(c.numBlocks)
    ensures OldestFirst(ps)
  {
  }

  /** The blocks that an allocation takes, and so evicts, have been unused at least as long as
      any block that it leaves. */
  lemma TakenAreOldest(c: Config, ps: seq<Pool>, id: Id, tokens: seq<Token>, computed: nat, n: nat, i: nat, b: nat)
    requires Trace(c, ps) && ps[0].store == Fresh(c.numBlocks)
    requires CallOk(c, ps[|ps| - 1], Allocate(id, tokens, computed, n))
    requires var p := ps[|ps| - 1];
             var p' := AllocateSlots(c, p, id, tokens, computed, n).0;
             id in p'.tables && |Table(p, id)| <= i < |p'.tables[id]| && b in p'.store.free
    ensures var p := ps[|ps| - 1];
            var taken := AllocateSlots(c, p, id, tokens, computed, n).0.tables[id][i];
            taken in p.store.free && Since(ps, taken) <= Since(ps, b)
  {
    hide PoolOk, PoolInBounds, AllocateSlots, Since;
    TraceOldest(c, ps);
    var p := ps[|ps| - 1];
    AllocateTakesHead(c, p, id, tokens, computed, n);
    var (p', ok) := AllocateSlots(c, p, id, tokens, computed, n);
    var missing, k := |p'.tables[id]| - |Table(p, id)|, i - |Table(p, id)|;
    assert p'.tables[id][i] == p.store.free[..missing][k] == p.store.free[k];
    var j :| 0 <= j < |p'.store.free| && p'.store.free[j] == b;
    assert p.store.free[missing + j] == b;
  }
}
