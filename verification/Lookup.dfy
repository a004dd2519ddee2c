/** What is published, and how far a prefix lookup gets, exactly. */
module Lookup {
  import opened Types
  import opened Arith
  import opened BlockStore
  import opened CachePool
  import opened PoolInvariant

  // ---------------------------------------------------------------- lookup

  /** A lookup can go on over the first m blocks. */
  ghost predicate Indexed(c: Config, s: Store, tokens: seq<Token>, m: nat) {
    Span(c.blockSize, m) <= |tokens| && Chain(c, tokens, m) in s.index
  }

  ghost predicate IndexedAs(c: Config, s: Store, tokens: seq<Token>, m: nat, b: nat) {
    Indexed(c, s, tokens, m) && s.index[Chain(c, tokens, m)] == b
  }

  /** It goes on as far as it can: it ends where the index has no block. */
  lemma {:induction false} MatchStops(c: Config, s: Store, tokens: seq<Token>, h: Hash, i: nat, n: nat)
    requires InBounds(s) && i <= n && Span(c.blockSize, n) <= |tokens| && Span(c.blockSize, i) <= |tokens|
    requires h == Chain(c, tokens, i)
    ensures var m := i + |Match(c, s, tokens, h, i, n)|;
            (forall j :: i < j <= m ==> Indexed(c, s, tokens, j)) && (m < n ==> !Indexed(c, s, tokens, m + 1))
    decreases n - i
  {
    if i < n {
      SpanGrows(c.blockSize, i + 1, n);
      var h' := c.blockHash(h, BlockTokens(c, tokens, i));
      assert h' == Chain(c, tokens, i + 1);
      if h' in s.index { MatchStops(c, s, tokens, h', i + 1, n); }
    }
  }

  lemma ChainNext(c: Config, tokens: seq<Token>, i: nat, n: nat)
    requires i <= n && Span(c.blockSize, n) <= |tokens|
    ensures i < n ==> Span(c.blockSize, i + 1) <= |tokens|
                      && c.blockHash(Chain(c, tokens, i), BlockTokens(c, tokens, i)) == Chain(c, tokens, i + 1)
  {
    SpanGrows(c.blockSize, i, n);
    if i < n { SpanGrows(c.blockSize, i + 1, n); }
  }

  lemma IsIndexedAs(c: Config, s: Store, tokens: seq<Token>, m: nat)
    requires Span(c.blockSize, m) <= |tokens| && Chain(c, tokens, m) in s.index
    ensures IndexedAs(c, s, tokens, m, s.index[Chain(c, tokens, m)])
  {
  }

  /** The blocks in r are those that the index has for the prefixes from block i on. */
  ghost predicate GivenFrom(c: Config, s: Store, tokens: seq<Token>, i: nat, r: seq<nat>) {
    forall j :: 0 <= j < |r| ==> IndexedAs(c, s, tokens, i + j + 1, r[j])
  }

  lemma GivenCons(c: Config, s: Store, tokens: seq<Token>, i: nat, b: nat, r: seq<nat>)
    requires IndexedAs(c, s, tokens, i + 1, b) && GivenFrom(c, s, tokens, i + 1, r)
    ensures GivenFrom(c, s, tokens, i, [b] + r)
  {
    hide IndexedAs;
    forall j | 0 <= j < |[b] + r|
      ensures IndexedAs(c, s, tokens, i + j + 1, ([b] + r)[j])
    {
      if j > 0 {
        assert ([b] + r)[j] == r[j - 1];
        assert IndexedAs(c, s, tokens, (i + 1) + (j - 1) + 1, r[j - 1]);
      }
    }
  }

  /** A lookup gives the blocks that the index has for one prefix after the other. */
  lemma {:induction false} MatchGives(c: Config, s: Store, tokens: seq<Token>, h: Hash, i: nat, n: nat)
    requires InBounds(s) && i <= n && Span(c.blockSize, n) <= |tokens| && Span(c.blockSize, i) <= |tokens|
    requires h == Chain(c, tokens, i)
    ensures GivenFrom(c, s, tokens, i, Match(c, s, tokens, h, i, n))
    decreases n - i
  {
    hide IndexedAs, Chain, GivenFrom;
    ChainNext(c, tokens, i, n);
    if i < n {
      var h' := c.blockHash(h, BlockTokens(c, tokens, i));
      if h' in s.index {
        IsIndexedAs(c, s, tokens, i + 1);
        MatchGives(c, s, tokens, h', i + 1, n);
        GivenCons(c, s, tokens, i, s.index[h'], Match(c, s, tokens, h', i + 1, n));
      } else {
        NoneGiven(c, s, tokens, i);
      }
    } else {
      NoneGiven(c, s, tokens, i);
    }
  }

  lemma NoneGiven(c: Config, s: Store, tokens: seq<Token>, i: nat)
    ensures GivenFrom(c, s, tokens, i, [])
  {
  }

  /** Block b is the one that the index gives for the first m blocks. */
  ghost predicate CachedAs(c: Config, s: Store, tokens: seq<Token>, m: nat, b: nat) {
    && Span(c.blockSize, m) <= |tokens|
    && b < |s.blocks| && s.blocks[b].cached && s.blocks[b].hash == Chain(c, tokens, m)
  }

  ghost predicate HasCached(c: Config, s: Store, tokens: seq<Token>, m: nat) {
    exists b: nat :: CachedAs(c, s, tokens, m, b)
  }

  lemma IndexedIsCached(c: Config, s: Store, tokens: seq<Token>, m: nat)
    requires IndexOk(s)
    ensures Indexed(c, s, tokens, m) <==> HasCached(c, s, tokens, m)
  {
    hide Chain, Span;
    if Indexed(c, s, tokens, m) { assert CachedAs(c, s, tokens, m, s.index[Chain(c, tokens, m)]); }
  }

  /** Exactly when a lookup finds the first m blocks: each prefix of them must have a block
      that is not just published under its hash, but is the cached one. */
  lemma MatchExact(c: Config, s: Store, tokens: seq<Token>, n: nat, m: nat)
    requires InBounds(s) && IndexOk(s) && m <= n && Span(c.blockSize, n) <= |tokens|
    ensures m <= |Match(c, s, tokens, HASH_SEED, 0, n)| <==>
              forall j: nat :: 0 < j <= m ==> HasCached(c, s, tokens, j)
  {
    hide Match, Chain, Span, Indexed, HasCached, IndexOk, InBounds;
    SeedIs(c, tokens);
    MatchStops(c, s, tokens, HASH_SEED, 0, n);
    forall j: nat
      ensures Indexed(c, s, tokens, j) <==> HasCached(c, s, tokens, j)
    {
      IndexedIsCached(c, s, tokens, j);
    }
  }

  lemma SeedIs(c: Config, tokens: seq<Token>)
    ensures Span(c.blockSize, 0) == 0 && Chain(c, tokens, 0) == HASH_SEED == 0x9e3779b97f4a7c15
  {
  }

  /** Two blocks are filled and published under the same hash; then the first one, which is
      in the index, is given up and evicted. */
  function TwoPublished(h: Hash): (s: Store)
    ensures InBounds(s)
  {
    var s0 := Fresh(2);
    var s1 := TakeBlock(s0);
    var s2 := TakeBlock(s1);
    var s3 := InsertHash(InsertHash(s2, h, 0), h, 1);
    TakeBlock(DropBlock(s3, 0))
  }

  /** Being published is not enough: the second block holds the prefix, its hash is valid and
      it is in use, but no lookup finds it. */
  lemma PublishedButMissed(c: Config, tokens: seq<Token>)
    requires Span(c.blockSize, 1) <= |tokens|
    ensures var s := TwoPublished(Chain(c, tokens, 1));
            && s.blocks[1].valid && s.blocks[1].refs == 1 && s.blocks[1].hash == Chain(c, tokens, 1)
            && Match(c, s, tokens, HASH_SEED, 0, 1) == []
  {
    hide Span;
    var h := Chain(c, tokens, 1);
    SeedIs(c, tokens);
    assert h == c.blockHash(HASH_SEED, BlockTokens(c, tokens, 0));
  }

  // ---------------------------------------------------------------- reuse

  /** The first m blocks can be reused: they are all in the index, and a token is left over. */
  ghost predicate Reusable(c: Config, s: Store, tokens: seq<Token>, m: nat) {
    Span(c.blockSize, m) < |tokens| && forall j: nat :: 0 < j <= m ==> Indexed(c, s, tokens, j)
  }

  ghost predicate MostReusable(c: Config, s: Store, tokens: seq<Token>, m: nat) {
    Reusable(c, s, tokens, m) && forall m': nat :: Reusable(c, s, tokens, m') ==> m' <= m
  }

  /** Reuse takes the longest prefix of full blocks that is in the index and leaves a token to
      compute; it puts the blocks that the index gives for it in the table, in order. */
  lemma ReuseLongest(c: Config, p: Pool, id: Id, tokens: seq<Token>) returns (found: seq<nat>)
    requires PoolInBounds(p) && tokens != [] && c.prefixCaching
    ensures MostReusable(c, p.store, tokens, |found|)
    ensures GivenFrom(c, p.store, tokens, 0, found)
    ensures var (p', n) := ReusePrefix(c, p, id, tokens);
            n == Span(c.blockSize, |found|) && Table(p', id) == Table(p, id) + found
  {
    hide Match, Indexed, InBounds, HoldAll, Chain, Span, GivenFrom;
    var n := NumSharedBlocks(c, tokens);
    found := Match(c, p.store, tokens, HASH_SEED, 0, n);
    SeedIs(c, tokens);
    SpanGrows(c.blockSize, |found|, n);
    SpanIsProduct(c.blockSize, |found|);
    MatchStops(c, p.store, tokens, HASH_SEED, 0, n);
    MatchGives(c, p.store, tokens, HASH_SEED, 0, n);
    forall m: nat | Reusable(c, p.store, tokens, m)
      ensures m <= |found|
    {
      DivBelow(|tokens| - 1, c.blockSize, m);
    }
  }

  ghost predicate ReusesMost(c: Config, s: Store, tokens: seq<Token>, n: nat) {
    if c.prefixCaching then exists m: nat :: n == Span(c.blockSize, m) && MostReusable(c, s, tokens, m) else n == 0
  }

  lemma ReuseIsMost(c: Config, p: Pool, id: Id, tokens: seq<Token>)
    requires PoolInBounds(p) && tokens != []
    ensures ReusesMost(c, p.store, tokens, ReusePrefix(c, p, id, tokens).1)
  {
    hide MostReusable, ReusePrefix, PoolInBounds;
    if c.prefixCaching { var found := ReuseLongest(c, p, id, tokens); } else { NoReuse(c, p, id, tokens); }
  }

  lemma NoReuse(c: Config, p: Pool, id: Id, tokens: seq<Token>)
    requires PoolInBounds(p) && tokens != [] && !c.prefixCaching
    ensures ReusePrefix(c, p, id, tokens) == (p, 0)
  {
  }

  /** In terms of the blocks: the reused prefix is the longest one with a token left over of
      which each prefix has a cached block. */
  lemma ReuseExact(c: Config, p: Pool, id: Id, tokens: seq<Token>) returns (m: nat)
    requires PoolInBounds(p) && IndexOk(p.store) && tokens != [] && c.prefixCaching
    ensures ReusePrefix(c, p, id, tokens).1 == Span(c.blockSize, m) < |tokens|
    ensures forall j: nat :: 0 < j <= m ==> HasCached(c, p.store, tokens, j)
    ensures Span(c.blockSize, m + 1) >= |tokens| || !HasCached(c, p.store, tokens, m + 1)
  {
    hide Indexed, HasCached, IndexOk, InBounds, ReusePrefix, Span;
    var found := ReuseLongest(c, p, id, tokens);
    m := |found|;
    forall j: nat
      ensures Indexed(c, p.store, tokens, j) <==> HasCached(c, p.store, tokens, j)
    {
      IndexedIsCached(c, p.store, tokens, j);
    }
    assert !Reusable(c, p.store, tokens, m + 1);
  }

  // ---------------------------------------------------------------- publication

  /** Publishing blocks i..n: they become valid and their hashes are in the index; nothing
      leaves it. */
  lemma {:induction false} PublishReaches(
    c: Config, s: Store, t: seq<nat>, tokens: seq<Token>, h: Hash, i: nat, n: nat)
    requires InBounds(s) && Inside(s, t) && i <= n <= |t| && Span(c.blockSize, n) <= |tokens|
    requires Span(c.blockSize, i) <= |tokens| && h == Chain(c, tokens, i)
    ensures var r := Publish(c, s, t, tokens, h, i, n);
            && s.index.Keys <= r.index.Keys
            && (forall b :: 0 <= b < |s.blocks| && s.blocks[b].valid ==> r.blocks[b].valid)
            && (forall j :: i <= j < n ==> r.blocks[t[j]].valid && Indexed(c, r, tokens, j + 1))
    decreases n - i
  {
    if i < n {
      hide InsertHash;
      SpanGrows(c.blockSize, i + 1, n);
      var h' := c.blockHash(h, BlockTokens(c, tokens, i));
      assert h' == Chain(c, tokens, i + 1);
      InsertReaches(s, h', t[i]);
      PublishReaches(c, InsertHash(s, h', t[i]), t, tokens, h', i + 1, n);
    }
  }

  /** A block is entered under its hash unless a referenced block already is; nobody else's
      hash, count or place in the free list changes. */
  lemma InsertReaches(s: Store, h: Hash, b: nat)
    requires InBounds(s) && b < |s.blocks|
    ensures var r := InsertHash(s, h, b);
            && r.index == (if h in s.index && s.blocks[s.index[h]].refs > 0 then s.index else s.index[h := b])
            && r.blocks[b].valid && r.blocks[b].hash == h && r.free == s.free
            && (forall x :: 0 <= x < |s.blocks| ==> r.blocks[x].refs == s.blocks[x].refs)
            && (forall x :: 0 <= x < |s.blocks| && x != b ==>
                  r.blocks[x].valid == s.blocks[x].valid && r.blocks[x].hash == s.blocks[x].hash)
  {
  }

  /** Every full, computed block gets published under the hash of the prefix it completes, and
      if it was not before, lookups find a block for that prefix. */
  lemma FullBlocksPublished(
    c: Config, s: Store, t: seq<nat>, tokens: seq<Token>, filled: nat, computed: nat, others: multiset<nat>, j: nat)
    requires StoreOk(s, multiset(t) + others) && InBounds(s) && c.prefixCaching
    requires TableOk(c, s, t, tokens, filled) && filled <= computed <= |tokens|
    requires j < |t| && Span(c.blockSize, j + 1) <= computed
    ensures var s' := CacheFullBlocks(c, s, t, tokens, computed);
            && s'.blocks[t[j]].valid && s'.blocks[t[j]].hash == Chain(c, tokens, j + 1)
            && (!s.blocks[t[j]].valid ==> Indexed(c, s', tokens, j + 1)) && s.index.Keys <= s'.index.Keys
  {
    hide StoreOk, InBounds, Publish, Chain, FirstUnpublished, Indexed;
    CacheFullKeepsOk(c, s, t, tokens, filled, computed, others);
    DivBelow(computed, c.blockSize, j + 1);
    InUnit(computed, c.blockSize);
    var n := NumFullBlocks(c, t, computed);
    FullIsCounted(c, t, computed, j);
    var first := FirstUnpublished(s, t, 0, n);
    if first < n {
      SpanGrows(c.blockSize, first, n);
      UnpublishedFrom(c, s, t, tokens, filled, first);
      SeedIs(c, tokens);
      PublishReaches(c, s, t, tokens, Chain(c, tokens, first), first, n);
    }
  }

  /** So does an allocation: whatever blocks are full by now get published with it. */
  lemma AllocationPublishes(
    c: Config, p: Pool, id: Id, tokens: seq<Token>, filled: nat, computed: nat, n: nat, j: nat)
    requires PoolOk(p) && PoolInBounds(p) && NumMissing(c, p, id, computed + n) >= 0 && c.prefixCaching
    requires TableOk(c, p.store, Table(p, id), tokens, filled) && filled <= computed <= |tokens|
    requires NumMissing(c, p, id, computed + n) <= |p.store.free|
    requires j < |Table(p, id)| && Span(c.blockSize, j + 1) <= computed
    ensures var (p', ok) := AllocateSlots(c, p, id, tokens, computed, n);
            var b := Table(p, id)[j];
            && ok && p'.store.blocks[b].valid && p'.store.blocks[b].hash == Chain(c, tokens, j + 1)
            && (!p.store.blocks[b].valid ==> Indexed(c, p'.store, tokens, j + 1))
  {
    hide StoreOk, TableOk, CacheFullBlocks, TakeBlocks, Indexed, Chain;
    var missing := NumMissing(c, p, id, computed + n);
    var p0 := p.(tables := p.tables[id := Table(p, id)]);
    AddEmptyTable(p, id);
    TakeBlocksKeepsOk(p0, id, missing);
    var p1 := TakeBlocks(p0, id, missing);
    ExtendedTable(c, p0, p1, id, missing, tokens, filled);
    HeldSplit(p1.tables, id);
    ghost var others := Held(p1.tables - {id});
    assert p1.tables[id][j] == Table(p, id)[j];
    FullBlocksPublished(c, p1.store, p1.tables[id], tokens, filled, computed, others, j);
  }

  lemma FullIsCounted(c: Config, t: seq<nat>, computed: nat, j: nat)
    requires j < |t| && Span(c.blockSize, j + 1) <= computed
    ensures j < NumFullBlocks(c, t, computed)
  {
    InUnit(computed, c.blockSize);
    if computed / c.blockSize < j + 1 { SpanGrows(c.blockSize, computed / c.blockSize + 1, j + 1); }
  }

  // ---------------------------------------------------------------- a prompt comes again

  /** A request's blocks stay findable when it goes: if it has computed at least all of a
      prompt but its last token, and none of its blocks has lost its entry in the index, the
      same prompt reuses all its full blocks. */
  lemma ResubmittedReuses(
    c: Config, p: Pool, id: Id, tokens: seq<Token>, filled: nat, computed: nat, id': Id, prompt: seq<Token>)
    requires PoolOk(p) && PoolInBounds(p) && id in p.tables && c.prefixCaching
    requires TableOk(c, p.store, p.tables[id], tokens, filled) && filled <= computed <= |tokens|
    requires computed <= Span(c.blockSize, |p.tables[id]|)
    requires forall j :: 0 <= j < |p.tables[id]| && p.store.blocks[p.tables[id][j]].valid ==>
               Indexed(c, p.store, tokens, j + 1)
    requires prompt != [] && prompt <= tokens && |prompt| - 1 <= computed
    requires Referenced(CacheFullBlocks(c, p.store, p.tables[id], tokens, computed), p.tables[id])
    ensures var p' := ReleaseBlocks(c, p, id, tokens, computed);
            ReusePrefix(c, p', id', prompt).1 == Span(c.blockSize, (|prompt| - 1) / c.blockSize)
  {
    hide PoolOk, TableOk, CacheFullBlocks, ReleaseBlocks, Indexed, ReusePrefix, MostReusable, Span, Referenced,
         PoolInBounds;
    var p' := ReleaseBlocks(c, p, id, tokens, computed);
    forall j: nat | 0 < j && Span(c.blockSize, j) < |prompt|
      ensures Indexed(c, p'.store, prompt, j)
    {
      FullAreIndexed(c, p, id, tokens, filled, computed, prompt, j);
    }
    var found := ReuseLongest(c, p', id', prompt);
    MostIs(c, p'.store, prompt, |found|);
  }

  lemma MostIs(c: Config, s: Store, tokens: seq<Token>, found: nat)
    requires tokens != [] && MostReusable(c, s, tokens, found)
    requires forall j: nat :: 0 < j && Span(c.blockSize, j) < |tokens| ==> Indexed(c, s, tokens, j)
    ensures found == (|tokens| - 1) / c.blockSize
  {
    hide Indexed, Span;
    var m := (|tokens| - 1) / c.blockSize;
    InUnit(|tokens| - 1, c.blockSize);
    forall j: nat | 0 < j <= m
      ensures Indexed(c, s, tokens, j)
    {
      SpanGrows(c.blockSize, j, m);
    }
    assert Reusable(c, s, tokens, m);
    DivBelow(|tokens| - 1, c.blockSize, found);
  }

  lemma FullAreIndexed(
    c: Config, p: Pool, id: Id, tokens: seq<Token>, filled: nat, computed: nat, prompt: seq<Token>, j: nat)
    requires PoolOk(p) && PoolInBounds(p) && id in p.tables && c.prefixCaching
    requires TableOk(c, p.store, p.tables[id], tokens, filled) && filled <= computed <= |tokens|
    requires computed <= Span(c.blockSize, |p.tables[id]|)
    requires forall k :: 0 <= k < |p.tables[id]| && p.store.blocks[p.tables[id][k]].valid ==>
               Indexed(c, p.store, tokens, k + 1)
    requires prompt != [] && prompt <= tokens && |prompt| - 1 <= computed
    requires Referenced(CacheFullBlocks(c, p.store, p.tables[id], tokens, computed), p.tables[id])
    requires 0 < j && Span(c.blockSize, j) < |prompt|
    ensures Indexed(c, ReleaseBlocks(c, p, id, tokens, computed).store, prompt, j)
  {
    hide StoreOk, TableOk, CacheFullBlocks, DropAll, Chain, Span;
    var t := p.tables[id];
    HeldSplit(p.tables, id);
    ghost var others := Held(p.tables - {id});
    if j > |t| { SpanGrows(c.blockSize, |t|, j); }
    OkInside(c, p.store, t, tokens, filled);
    FullBlocksPublished(c, p.store, t, tokens, filled, computed, others, j - 1);
    ChainPrefix(c, prompt, tokens, j);
    if p.store.blocks[t[j - 1]].valid { assert Indexed(c, p.store, tokens, (j - 1) + 1); }
  }
}
