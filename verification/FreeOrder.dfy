/** The free list as a queue: what release appends, what allocation takes from its head, and
    what reuse leaves of it. */
module FreeOrder {
  import opened Types
  import opened Arith
  import opened BlockStore
  import opened CachePool
  import opened PoolInvariant
  import opened Lookup

  // ---------------------------------------------------------------- release

  /** Position i of the list gives up the last reference to its block. */
  ghost predicate LastRef(s: Store, bs: seq<nat>, i: nat) {
    i < |bs| && bs[i] < |s.blocks| && s.blocks[bs[i]].refs == multiset(bs[..i + 1])[bs[i]]
  }

  /** The blocks that the first n positions give up for good, in order. */
  ghost function Given(s: Store, bs: seq<nat>, n: nat): seq<nat>
    requires n <= |bs|
  {
    if n == 0 then [] else Given(s, bs, n - 1) + if LastRef(s, bs, n - 1) then [bs[n - 1]] else []
  }

  lemma LastRefShifts(s: Store, bs: seq<nat>, i: nat)
    requires InBounds(s) && i + 1 < |bs| && bs[0] < |s.blocks| && s.blocks[bs[0]].refs > 0
    ensures LastRef(s, bs, i + 1) <==> LastRef(DropBlock(s, bs[0]), bs[1..], i)
  {
    assert bs[..i + 2] == [bs[0]] + bs[1..][..i + 1];
    assert multiset(bs[..i + 2]) == multiset{bs[0]} + multiset(bs[1..][..i + 1]);
    assert bs[..i + 1 + 1] == bs[..i + 2];
  }

  lemma {:induction false} GivenShifts(s: Store, bs: seq<nat>, n: nat)
    requires InBounds(s) && n < |bs| && bs[0] < |s.blocks| && s.blocks[bs[0]].refs > 0
    ensures Given(s, bs, n + 1) ==
              (if s.blocks[bs[0]].refs == 1 then [bs[0]] else []) + Given(DropBlock(s, bs[0]), bs[1..], n)
  {
    hide LastRef, DropBlock;
    if n == 0 {
      FirstRef(s, bs);
      assert Given(s, bs, 1) == Given(s, bs, 0) + if LastRef(s, bs, 0) then [bs[0]] else [];
    } else {
      GivenShifts(s, bs, n - 1);
      LastRefShifts(s, bs, n - 1);
      var first := if s.blocks[bs[0]].refs == 1 then [bs[0]] else [];
      var middle := Given(DropBlock(s, bs[0]), bs[1..], n - 1);
      var last := if LastRef(s, bs, n) then [bs[n]] else [];
      assert bs[1..][n - 1] == bs[n];
      assert (first + middle) + last == first + (middle + last);
    }
  }

  lemma FirstRef(s: Store, bs: seq<nat>)
    requires bs != [] && bs[0] < |s.blocks|
    ensures LastRef(s, bs, 0) <==> s.blocks[bs[0]].refs == 1
  {
    assert bs[..1] == [bs[0]];
  }

  /** Giving up references appends the blocks that lose their last one, in order. */
  lemma {:induction false} DropAllGives(s: Store, bs: seq<nat>)
    requires InBounds(s) && Referenced(s, bs)
    ensures DropAll(s, bs).free == s.free + Given(s, bs, |bs|)
    decreases |bs|
  {
    hide Given, Referenced, DropBlock, InBounds;
    if bs == [] {
      NothingGiven(s, bs);
    } else {
      DropFirst(s, bs);
      GivenShifts(s, bs, |bs| - 1);
      var s', first := DropBlock(s, bs[0]), if s.blocks[bs[0]].refs == 1 then [bs[0]] else [];
      DropFrees(s, bs[0]);
      DropAllGives(s', bs[1..]);
      assert (s.free + first) + Given(s', bs[1..], |bs| - 1) == s.free + (first + Given(s', bs[1..], |bs| - 1));
    }
  }

  lemma DropFrees(s: Store, b: nat)
    requires InBounds(s) && b < |s.blocks| && s.blocks[b].refs > 0
    ensures DropBlock(s, b).free == s.free + if s.blocks[b].refs == 1 then [b] else []
  {
  }

  /** Each occurrence in the list gives up one reference. */
  lemma {:induction false} DropAllCounts(s: Store, bs: seq<nat>)
    requires InBounds(s) && Referenced(s, bs)
    ensures forall b :: 0 <= b < |s.blocks| ==> DropAll(s, bs).blocks[b].refs == s.blocks[b].refs - multiset(bs)[b]
    decreases |bs|
  {
    hide Referenced, InBounds;
    if bs != [] {
      DropFirst(s, bs);
      DropAllCounts(DropBlock(s, bs[0]), bs[1..]);
      assert bs == [bs[0]] + bs[1..];
      assert multiset(bs) == multiset{bs[0]} + multiset(bs[1..]);
    }
  }

  lemma NothingGiven(s: Store, bs: seq<nat>)
    ensures Given(s, bs, 0) == []
  {
  }

  lemma {:induction false} PublishFrame(c: Config, s: Store, t: seq<nat>, tokens: seq<Token>, h: Hash, i: nat, n: nat)
    requires InBounds(s) && Inside(s, t) && i <= n <= |t| && Span(c.blockSize, n) <= |tokens|
    ensures SameCounts(s, Publish(c, s, t, tokens, h, i, n))
    decreases n - i
  {
    if i < n {
      hide InsertHash;
      SpanGrows(c.blockSize, i + 1, n);
      var h' := c.blockHash(h, BlockTokens(c, tokens, i));
      InsertReaches(s, h', t[i]);
      PublishFrame(c, InsertHash(s, h', t[i]), t, tokens, h', i + 1, n);
    }
  }

  ghost predicate SameCounts(s: Store, s': Store) {
    && s'.free == s.free && |s'.blocks| == |s.blocks|
    && forall b :: 0 <= b < |s.blocks| ==> s'.blocks[b].refs == s.blocks[b].refs
  }

  /** Publication moves no block. */
  lemma CacheFullFrame(c: Config, s: Store, t: seq<nat>, tokens: seq<Token>, computed: nat)
    requires InBounds(s) && Inside(s, t) && computed <= |tokens|
    ensures SameCounts(s, CacheFullBlocks(c, s, t, tokens, computed))
  {
    hide Publish, FirstUnpublished, NumFullBlocks, InBounds;
    if c.prefixCaching {
      var n := NumFullBlocks(c, t, computed);
      var first := FirstUnpublished(s, t, 0, n);
      if first < n {
        PublishFrame(c, s, t, tokens, if first == 0 then HASH_SEED else s.blocks[t[first - 1]].hash, first, n);
      }
    }
  }

  lemma {:induction false} GivenSame(s: Store, s': Store, bs: seq<nat>, n: nat)
    requires SameCounts(s, s') && n <= |bs|
    ensures Given(s', bs, n) == Given(s, bs, n)
  {
    if n > 0 { GivenSame(s, s', bs, n - 1); }
  }

  /** Release appends to the free list, in table order, the blocks that nobody else refers to;
      the blocks that were free before stay in front of them as they were. */
  lemma ReleaseAppends(c: Config, p: Pool, id: Id, tokens: seq<Token>, computed: nat)
    requires PoolInBounds(p) && computed <= |tokens| && id in p.tables
    requires Referenced(CacheFullBlocks(c, p.store, p.tables[id], tokens, computed), p.tables[id])
    ensures var p', t := ReleaseBlocks(c, p, id, tokens, computed), p.tables[id];
            && p'.store.free == p.store.free + Given(p.store, t, |t|)
            && forall b :: 0 <= b < |p.store.blocks| ==>
                 p'.store.blocks[b].refs == p.store.blocks[b].refs - multiset(t)[b]
  {
    hide CacheFullBlocks, DropAll, Given, Referenced, InBounds;
    var t := p.tables[id];
    var s := CacheFullBlocks(c, p.store, t, tokens, computed);
    CacheFullFrame(c, p.store, t, tokens, computed);
    DropAllGives(s, t);
    DropAllCounts(s, t);
    GivenSame(p.store, s, t, |t|);
  }

  /** These are exactly the blocks that were in use and no longer are. */
  lemma GivenExactly(p: Pool, p': Pool, given: seq<nat>, b: nat)
    requires PoolOk(p) && PoolOk(p') && |p'.store.blocks| == |p.store.blocks| && p'.store.free == p.store.free + given
    requires b < |p.store.blocks|
    ensures b in given <==> p.store.blocks[b].refs > 0 && p'.store.blocks[b].refs == 0
  {
    hide IndexOk;
    assert multiset(p'.store.free) == multiset(p.store.free) + multiset(given);
    assert b in given <==> multiset(given)[b] > 0;
  }

  // ---------------------------------------------------------------- allocation

  ghost function TakenOnce(p: Pool, id: Id): Pool
    requires PoolInBounds(p) && id in p.tables && p.store.free != []
  {
    Pool(TakeBlock(p.store), p.tables[id := p.tables[id] + [p.store.free[0]]])
  }

  lemma TakeFirst(p: Pool, id: Id, n: nat)
    requires PoolInBounds(p) && 0 < n <= |p.store.free| && id in p.tables
    ensures var p' := TakenOnce(p, id);
            && PoolInBounds(p') && p'.store.free == p.store.free[1..] && id in p'.tables
            && p'.tables[id] == p.tables[id] + [p.store.free[0]]
            && TakeBlocks(p, id, n) == TakeBlocks(p', id, n - 1)
  {
    assert p.store.free[0] in p.store.free;
  }

  lemma {:induction false} TakeBlocksOrder(p: Pool, id: Id, n: nat)
    requires PoolInBounds(p) && n <= |p.store.free| && id in p.tables
    ensures var p' := TakeBlocks(p, id, n);
            && p'.store.free == p.store.free[n..] && p'.tables[id] == p.tables[id] + p.store.free[..n]
    decreases n
  {
    if n > 0 {
      hide PoolInBounds, TakeBlocks, TakenOnce;
      var free, t := p.store.free, p.tables[id];
      TakeFirst(p, id, n);
      TakeBlocksOrder(TakenOnce(p, id), id, n - 1);
      assert free[n..] == free[1..][n - 1..];
      assert (t + [free[0]]) + free[1..][..n - 1] == t + free[..n];
    }
  }

  /** Allocation takes the missing blocks from the head of the free list, in order; it fails
      only if there are not enough, and then changes nothing. */
  lemma AllocateTakesHead(c: Config, p: Pool, id: Id, tokens: seq<Token>, computed: nat, n: nat)
    requires PoolInBounds(p) && computed <= |tokens| && NumMissing(c, p, id, computed + n) >= 0
    ensures var (p', ok) := AllocateSlots(c, p, id, tokens, computed, n);
            var missing := CeilDiv(computed + n, c.blockSize) - |Table(p, id)|;
            && (ok <==> missing <= |p.store.free|) && (!ok ==> p' == p)
            && (ok ==> p'.store.free == p.store.free[missing..]
                       && p'.tables[id] == Table(p, id) + p.store.free[..missing])
  {
    hide CacheFullBlocks, TakeBlocks, CeilDiv;
    var missing := NumMissing(c, p, id, computed + n);
    if missing <= |p.store.free| {
      var p0 := p.(tables := p.tables[id := Table(p, id)]);
      TakeBlocksOrder(p0, id, missing);
      var p1 := TakeBlocks(p0, id, missing);
      CacheFullFrame(c, p1.store, p1.tables[id], tokens, computed);
    }
  }

  // ---------------------------------------------------------------- reuse

  /** xs without the elements of bs, in the same order. */
  ghost function Except(xs: seq<nat>, bs: seq<nat>): seq<nat> {
    if xs == [] then [] else (if xs[0] in bs then [] else [xs[0]]) + Except(xs[1..], bs)
  }

  lemma {:induction false} ExceptTwice(xs: seq<nat>, b: nat, bs: seq<nat>)
    ensures Except(Except(xs, [b]), bs) == Except(xs, [b] + bs)
  {
    if xs != [] {
      hide Except;
      var x, ys := xs[0], xs[1..];
      ExceptTwice(ys, b, bs);
      ExceptFirst(xs, [b]);
      ExceptFirst(xs, [b] + bs);
      assert x in [b] + bs <==> x == b || x in bs;
      if x != b {
        var zs := Except(ys, [b]);
        ExceptFirst([x] + zs, bs);
        assert ([x] + zs)[1..] == zs;
      } else {
        assert [] + Except(ys, [b]) == Except(ys, [b]) && [] + Except(ys, [b] + bs) == Except(ys, [b] + bs);
      }
    } else {
      NothingExcept([b]);
      NothingExcept(bs);
      NothingExcept([b] + bs);
    }
  }

  lemma ExceptFirst(xs: seq<nat>, bs: seq<nat>)
    requires xs != []
    ensures Except(xs, bs) == (if xs[0] in bs then [] else [xs[0]]) + Except(xs[1..], bs)
  {
  }

  lemma NothingExcept(bs: seq<nat>)
    ensures Except([], bs) == []
  {
  }

  lemma {:induction false} ExceptNone(xs: seq<nat>, bs: seq<nat>)
    requires forall x :: x in xs ==> x !in bs
    ensures Except(xs, bs) == xs
  {
    if xs != [] { ExceptNone(xs[1..], bs); }
  }

  lemma {:induction false} WithoutIsExcept(xs: seq<nat>, b: nat)
    requires multiset(xs)[b] <= 1
    ensures Without(xs, b) == Except(xs, [b])
  {
    if xs != [] {
      assert xs == [xs[0]] + xs[1..];
      assert multiset(xs) == multiset{xs[0]} + multiset(xs[1..]);
      if xs[0] == b {
        assert b !in multiset(xs[1..]);
        ExceptNone(xs[1..], [b]);
      } else {
        WithoutIsExcept(xs[1..], b);
      }
    }
  }

  lemma HoldExcept(s: Store, held: multiset<nat>, b: nat)
    requires InBounds(s) && CountsOk(s, held) && b < |s.blocks|
    ensures HoldBlock(s, b).free == Except(s.free, [b])
  {
    hide Without, Except;
    WithoutIsExcept(s.free, b);
    if s.blocks[b].refs > 0 {
      assert b !in multiset(s.free);
      ExceptNone(s.free, [b]);
    }
  }

  /** Holding blocks takes exactly them out of the free list. */
  lemma {:induction false} HoldAllExcept(s: Store, held: multiset<nat>, bs: seq<nat>)
    requires InBounds(s) && CountsOk(s, held) && Inside(s, bs)
    ensures HoldAll(s, bs).free == Except(s.free, bs)
    decreases |bs|
  {
    hide HoldBlock, CountsOk, Except;
    if bs == [] {
      ExceptNone(s.free, bs);
    } else {
      HoldExcept(s, held, bs[0]);
      HoldKeepsCounts(s, held, bs[0]);
      HoldAllExcept(HoldBlock(s, bs[0]), held + multiset{bs[0]}, bs[1..]);
      ExceptTwice(s.free, bs[0], bs[1..]);
      assert bs == [bs[0]] + bs[1..];
    }
  }

  /** Reuse takes exactly the blocks it found out of the free list; the others keep their
      order. */
  lemma ReuseLeavesRest(c: Config, p: Pool, id: Id, tokens: seq<Token>)
    requires PoolOk(p) && PoolInBounds(p) && tokens != [] && id !in p.tables
    ensures var p' := ReusePrefix(c, p, id, tokens).0; p'.store.free == Except(p.store.free, Table(p', id))
  {
    hide Match, HoldAll, CountsOk, IndexOk, NumSharedBlocks, Except;
    if c.prefixCaching {
      var matched := Match(c, p.store, tokens, HASH_SEED, 0, NumSharedBlocks(c, tokens));
      HoldAllExcept(p.store, Held(p.tables), matched);
      assert [] + matched == matched;
    }
    ExceptNone(p.store.free, []);
  }
}
