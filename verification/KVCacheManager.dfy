/** The cache manager as it is implemented: one array of block records, an intrusive
    doubly linked free list through it, a hash table and the request tables. */
module KVCacheManager {
  import opened Types
  import opened Arith
  import B = BlockStore
  import P = CachePool
  import L = Lookup
  import F = FreeOrder

  datatype BlockRecord = BlockRecord(
    refCount: nat,
    prevFree: int,
    nextFree: int,
    hash: Hash,
    hashValid: bool,
    cached: bool)

  function Tag(r: BlockRecord): B.Block {
    B.Block(r.refCount, r.hash, r.hashValid, r.cached)
  }

  /** The request counts no more as computed than it has, nor holds more than it needs. */
  ghost predicate CanAllocate(c: Config, p: P.Pool, r: Request, n: nat) {
    P.PoolInBounds(p) && r.numComputed <= |r.tokens| && P.NumMissing(c, p, r.id, r.numComputed + n) >= 0
  }

  ghost function Allocation(c: Config, p: P.Pool, r: Request, n: nat): (P.Pool, bool) {
    if CanAllocate(c, p, r, n) then P.AllocateSlots(c, p, r.id, r.tokens, r.numComputed, n) else (p, false)
  }

  /** The missing blocks come from the head of the free list, or nothing changes. */
  ghost predicate TakesHead(c: Config, p: P.Pool, r: Request, n: nat, p': P.Pool, ok: bool) {
    var missing := CeilDiv(r.numComputed + n, c.blockSize) - |P.Table(p, r.id)|;
    if 0 <= missing <= |p.store.free| then
      && ok && p'.store.free == p.store.free[missing..]
      && P.Table(p', r.id) == P.Table(p, r.id) + p.store.free[..missing]
    else !ok && p' == p
  }

  lemma AllocationTakesHead(c: Config, p: P.Pool, r: Request, n: nat)
    requires CanAllocate(c, p, r, n)
    ensures var (p', ok) := Allocation(c, p, r, n); TakesHead(c, p, r, n, p', ok)
  {
    hide P.AllocateSlots, P.PoolInBounds;
    F.AllocateTakesHead(c, p, r.id, r.tokens, r.numComputed, n);
  }

  // ---------------------------------------------------------------- one round of each loop

  lemma DropStep(s: B.Store, t: seq<nat>, k: nat)
    requires B.InBounds(s) && k < |t| && P.Referenced(s, t[k..])
    ensures t[k] < |s.blocks| && s.blocks[t[k]].refs > 0
    ensures P.Referenced(B.DropBlock(s, t[k]), t[k + 1..])
    ensures P.DropAll(s, t[k..]) == P.DropAll(B.DropBlock(s, t[k]), t[k + 1..])
  {
    hide P.Referenced, B.DropBlock;
    var bs := t[k..];
    assert bs[0] == t[k] && bs[1..] == t[k + 1..];
    P.DropFirst(s, bs);
  }

  lemma HoldStep(s: B.Store, t: seq<nat>, k: nat)
    requires B.InBounds(s) && k < |t| && P.Inside(s, t)
    ensures P.HoldAll(s, t[k..]) == P.HoldAll(B.HoldBlock(s, t[k]), t[k + 1..])
  {
    assert t[k..][1..] == t[k + 1..];
  }

  /** What the lookup loop still has to find after the blocks below i. */
  lemma MatchStep(c: Config, s: B.Store, tokens: seq<Token>, hash: Hash, i: nat, n: nat)
    requires B.InBounds(s) && i < n && Span(c.blockSize, n) <= |tokens|
    ensures Span(c.blockSize, i + 1) <= |tokens|
    ensures var h := c.blockHash(hash, P.BlockTokens(c, tokens, i));
            P.Match(c, s, tokens, hash, i, n) ==
              if h in s.index then [s.index[h]] + P.Match(c, s, tokens, h, i + 1, n) else []
  {
    SpanGrows(c.blockSize, i + 1, n);
  }

  lemma TakeStep(p: P.Pool, id: Id, n: nat)
    requires P.PoolInBounds(p) && id in p.tables && 0 < n <= |p.store.free|
    ensures B.InBounds(p.store)
    ensures var p' := P.Pool(B.TakeBlock(p.store), p.tables[id := p.tables[id] + [p.store.free[0]]]);
            P.PoolInBounds(p') && n - 1 <= |p'.store.free| && P.TakeBlocks(p, id, n) == P.TakeBlocks(p', id, n - 1)
  {
  }

  lemma TakeNone(p: P.Pool, id: Id)
    requires P.PoolInBounds(p) && id in p.tables
    ensures P.TakeBlocks(p, id, 0) == p
  {
  }

  lemma PublishStep(c: Config, s: B.Store, t: seq<nat>, tokens: seq<Token>, h: Hash, i: nat, n: nat)
    requires B.InBounds(s) && P.Inside(s, t) && i < n <= |t| && Span(c.blockSize, n) <= |tokens|
    ensures Span(c.blockSize, i + 1) <= |tokens|
    ensures var h' := c.blockHash(h, P.BlockTokens(c, tokens, i));
            var s' := B.InsertHash(s, h', t[i]);
            && B.InBounds(s') && P.Inside(s', t)
            && P.Publish(c, s, t, tokens, h, i, n) == P.Publish(c, s', t, tokens, h', i + 1, n)
  {
    hide B.InsertHash, P.BlockTokens;
    SpanGrows(c.blockSize, i + 1, n);
  }

  lemma PublishNone(c: Config, s: B.Store, t: seq<nat>, tokens: seq<Token>, h: Hash, n: nat)
    requires B.InBounds(s) && P.Inside(s, t) && n <= |t| && Span(c.blockSize, n) <= |tokens|
    ensures P.Publish(c, s, t, tokens, h, n, n) == s
  {
  }

  lemma HoldNone(s: B.Store)
    requires B.InBounds(s)
    ensures P.HoldAll(s, []) == s
  {
  }

  lemma DropNone(s: B.Store)
    requires B.InBounds(s)
    ensures P.DropAll(s, []) == s
  {
  }

  lemma MatchEnd(c: Config, s: B.Store, tokens: seq<Token>, hash: Hash, n: nat)
    requires B.InBounds(s) && Span(c.blockSize, n) <= |tokens|
    ensures P.Match(c, s, tokens, hash, n, n) == []
  {
  }

  // ---------------------------------------------------------------- links as values

  function PrevIn(free: seq<nat>, i: nat): int
    requires i < |free|
  {
    if i == 0 then -1 else free[i - 1]
  }

  function NextIn(free: seq<nat>, i: nat): int
    requires i < |free|
  {
    if i == |free| - 1 then -1 else free[i + 1]
  }

  ghost predicate NoRepeat(free: seq<nat>) {
    forall i, j :: 0 <= i < j < |free| ==> free[i] != free[j]
  }

  ghost predicate Chained(bs: seq<BlockRecord>, free: seq<nat>) {
    && NoRepeat(free)
    && forall i :: 0 <= i < |free| ==>
         free[i] < |bs| && bs[free[i]].prevFree == PrevIn(free, i) && bs[free[i]].nextFree == NextIn(free, i)
  }

  function Relink(r: BlockRecord, prev: int, next: int): BlockRecord {
    r.(prevFree := prev, nextFree := next)
  }

  /** One position of a chained list: where it is, what it links to, and that no other
      position shares its block. */
  lemma ChainedAt(bs: seq<BlockRecord>, free: seq<nat>, k: nat)
    requires Chained(bs, free) && k < |free|
    ensures free[k] < |bs| && bs[free[k]].prevFree == PrevIn(free, k) && bs[free[k]].nextFree == NextIn(free, k)
    ensures -1 <= PrevIn(free, k) < |bs| && -1 <= NextIn(free, k) < |bs|
  {
    if k > 0 { assert free[k - 1] < |bs|; }
    if k < |free| - 1 { assert free[k + 1] < |bs|; }
  }

  lemma ChainedHead(bs: seq<BlockRecord>, free: seq<nat>)
    requires Chained(bs, free) && free != []
    ensures free[0] !in free[1..]
  {
  }

  lemma DropOne(free: seq<nat>, k: nat)
    requires NoRepeat(free) && k < |free|
    ensures forall x :: x in free[..k] + free[k + 1..] <==> x in free && x != free[k]
  {
    var free' := free[..k] + free[k + 1..];
    forall x
      ensures x in free' <==> x in free && x != free[k]
    {
      if x in free && x != free[k] {
        var i :| 0 <= i < |free| && free[i] == x;
        assert free'[if i < k then i else i - 1] == x;
      }
    }
  }

  lemma ChainedApart(bs: seq<BlockRecord>, free: seq<nat>, i: nat, j: nat)
    requires Chained(bs, free) && i < |free| && j < |free| && i != j
    ensures free[i] != free[j]
  {
  }

  /** The records after b has been appended behind `tail`. */
  function Appended(bs: seq<BlockRecord>, b: nat, tail: int): (r: seq<BlockRecord>)
    requires b < |bs| && -1 <= tail < |bs|
  {
    var bs1 := bs[b := Relink(bs[b], tail, -1)];
    if tail == -1 then bs1 else bs1[tail := bs1[tail].(nextFree := b)]
  }

  lemma PushChained(bs: seq<BlockRecord>, free: seq<nat>, b: nat)
    requires Chained(bs, free) && b < |bs| && b !in free
    ensures var tail := if free == [] then -1 else free[|free| - 1];
            -1 <= tail < |bs| && Chained(Appended(bs, b, tail), free + [b])
  {
    var free' := free + [b];
    if free != [] { ChainedAt(bs, free, |free| - 1); }
    var bs' := Appended(bs, b, if free == [] then -1 else free[|free| - 1]);
    AppendNoRepeat(bs, free, b);
    hide Chained, NoRepeat;
    forall i | 0 <= i < |free'|
      ensures free'[i] < |bs'| && bs'[free'[i]].prevFree == PrevIn(free', i)
                && bs'[free'[i]].nextFree == NextIn(free', i)
    {
      AppendedAt(bs, free, b, i);
    }
    ChainedFrom(bs', free');
  }

  lemma EmptyChained(bs: seq<BlockRecord>)
    ensures Chained(bs, [])
  {
  }

  /** The list does not care about anything but the links. */
  lemma SameLinks(bs: seq<BlockRecord>, bs': seq<BlockRecord>, free: seq<nat>)
    requires Chained(bs, free) && |bs| == |bs'|
    requires forall i :: 0 <= i < |bs| ==> bs'[i].prevFree == bs[i].prevFree && bs'[i].nextFree == bs[i].nextFree
    ensures Chained(bs', free)
  {
  }

  lemma AppendNoRepeat(bs: seq<BlockRecord>, free: seq<nat>, b: nat)
    requires Chained(bs, free) && b !in free
    ensures NoRepeat(free + [b])
  {
  }

  lemma ChainedFrom(bs: seq<BlockRecord>, free: seq<nat>)
    requires NoRepeat(free)
    requires forall i :: 0 <= i < |free| ==>
               free[i] < |bs| && bs[free[i]].prevFree == PrevIn(free, i) && bs[free[i]].nextFree == NextIn(free, i)
    ensures Chained(bs, free)
  {
  }

  lemma AppendedAt(bs: seq<BlockRecord>, free: seq<nat>, b: nat, i: nat)
    requires Chained(bs, free) && b < |bs| && b !in free && i <= |free|
    ensures var tail := if free == [] then -1 else free[|free| - 1];
            var free' := free + [b];
            && -1 <= tail < |bs|
            && var bs' := Appended(bs, b, tail);
               free'[i] < |bs'| && bs'[free'[i]].prevFree == PrevIn(free', i)
                   && bs'[free'[i]].nextFree == NextIn(free', i)
  {
    hide Chained;
    var last := |free| - 1;
    if free != [] { ChainedAt(bs, free, last); assert free[last] in free; }
    if i < |free| {
      ChainedAt(bs, free, i);
      assert free[i] in free;
      if i < last { ChainedApart(bs, free, i, last); }
    }
  }

  /** The records after b has been unlinked from between prev and next. */
  function Unlinked(bs: seq<BlockRecord>, b: nat, prev: int, next: int): (r: seq<BlockRecord>)
    requires b < |bs| && -1 <= prev < |bs| && -1 <= next < |bs|
    ensures |r| == |bs|
  {
    var bs1 := if prev == -1 then bs else bs[prev := bs[prev].(nextFree := next)];
    var bs2 := if next == -1 then bs1 else bs1[next := bs1[next].(prevFree := prev)];
    bs2[b := Relink(bs2[b], -1, -1)]
  }

  lemma UnlinkedTags(bs: seq<BlockRecord>, b: nat, prev: int, next: int)
    requires b < |bs| && -1 <= prev < |bs| && -1 <= next < |bs|
    ensures forall i :: 0 <= i < |bs| ==> Tag(Unlinked(bs, b, prev, next)[i]) == Tag(bs[i])
  {
  }

  function Skip(k: nat, i: nat): nat {
    if i < k then i else i + 1
  }

  lemma UnlinkedAt(bs: seq<BlockRecord>, free: seq<nat>, k: nat, j: nat)
    requires Chained(bs, free) && k < |free| && j < |free| && j != k
    ensures free[k] < |bs| && free[j] < |bs| && -1 <= PrevIn(free, k) < |bs| && -1 <= NextIn(free, k) < |bs|
    ensures var bs' := Unlinked(bs, free[k], PrevIn(free, k), NextIn(free, k));
            && bs'[free[j]].prevFree == (if j == k + 1 then PrevIn(free, k) else PrevIn(free, j))
            && bs'[free[j]].nextFree == (if j + 1 == k then NextIn(free, k) else NextIn(free, j))
  {
    hide Chained;
    ChainedAt(bs, free, k);
    ChainedAt(bs, free, j);
    ChainedApart(bs, free, j, k);
    if k > 0 && j != k - 1 { ChainedApart(bs, free, j, k - 1); }
    if k + 1 < |free| && j != k + 1 { ChainedApart(bs, free, j, k + 1); }
  }

  lemma UnlinkChained(bs: seq<BlockRecord>, free: seq<nat>, k: nat)
    requires Chained(bs, free) && k < |free|
    ensures free[k] < |bs| && -1 <= PrevIn(free, k) < |bs| && -1 <= NextIn(free, k) < |bs|
    ensures Chained(Unlinked(bs, free[k], PrevIn(free, k), NextIn(free, k)), free[..k] + free[k + 1..])
  {
    hide Chained, Unlinked;
    ChainedAt(bs, free, k);
    var bs' := Unlinked(bs, free[k], PrevIn(free, k), NextIn(free, k));
    var free' := free[..k] + free[k + 1..];
    forall i, j | 0 <= i < j < |free'|
      ensures free'[i] != free'[j]
    {
      ChainedApart(bs, free, Skip(k, i), Skip(k, j));
    }
    forall i | 0 <= i < |free'|
      ensures free'[i] < |bs'| && bs'[free'[i]].prevFree == PrevIn(free', i)
                && bs'[free'[i]].nextFree == NextIn(free', i)
    {
      assert free'[i] == free[Skip(k, i)];
      UnlinkedAt(bs, free, k, Skip(k, i));
    }
    ChainedFrom(bs', free');
  }

  class KVCacheManager {
    const config: Config
    const blocks: array<BlockRecord>

    var freeHead: int
    var freeTail: int
    var numFreeBlocks: int
    var hashToBlock: map<Hash, nat>
    var tables: map<Id, seq<nat>>

    /** The free blocks, least recently freed first. */
    ghost var free: seq<nat>

    /** The prev/next links encode exactly `free`, without duplicates. */
    ghost predicate Linked()
      reads `freeHead, `freeTail, `numFreeBlocks, `free, blocks
    {
      && numFreeBlocks == |free|
      && Chained(blocks[..], free)
      && freeHead == (if free == [] then -1 else free[0])
      && freeTail == (if free == [] then -1 else free[|free| - 1])
    }

    ghost function Tags(): (t: seq<B.Block>)
      reads blocks
      ensures |t| == blocks.Length && forall i :: 0 <= i < |t| ==> t[i] == Tag(blocks[i])
    {
      seq(blocks.Length, i requires 0 <= i < blocks.Length reads blocks => Tag(blocks[i]))
    }

    ghost function Store(): B.Store
      reads `free, `hashToBlock, blocks
    {
      B.Store(Tags(), free, hashToBlock)
    }

    /** The manager's abstract value. */
    ghost function View(): P.Pool
      reads this, blocks
    {
      P.Pool(Store(), tables)
    }

    ghost predicate FreeAreIdle()
      reads `free, blocks
    {
      forall b: nat :: b < blocks.Length ==> (b in free <==> blocks[b].refCount == 0)
    }

    ghost predicate Valid()
      reads this, blocks
    {
      Linked() && FreeAreIdle() && P.PoolInBounds(View())
    }

    constructor (c: Config)
      ensures Valid() && config == c && fresh(blocks)
      ensures View() == P.Pool(B.Fresh(c.numBlocks), map[])
    {
      config := c;
      blocks := new BlockRecord[c.numBlocks](_ => BlockRecord(0, -1, -1, 0, false, false));
      freeHead, freeTail, numFreeBlocks := -1, -1, 0;
      hashToBlock, tables, free := map[], map[], [];
      new;
      assert Tags() == B.Fresh(config.numBlocks).blocks;
      FreeAll();
    }

    /** The constructor's loop. */
    method FreeAll()
      requires freeHead == freeTail == -1 && numFreeBlocks == 0 && free == [] && tables == map[] && hashToBlock == map[]
      requires blocks.Length == config.numBlocks && Tags() == B.Fresh(config.numBlocks).blocks
      modifies `freeHead, `freeTail, `numFreeBlocks, `free, blocks
      ensures Valid() && View() == P.Pool(B.Fresh(config.numBlocks), map[])
    {
      hide Chained;
      EmptyChained(blocks[..]);
      for b := 0 to config.numBlocks
        invariant Linked() && free == B.Upto(b) && Tags() == B.Fresh(config.numBlocks).blocks
      {
        assert free + [b] == B.Upto(b + 1);
        PushFree(b);
      }
      AllIdle();
    }

    lemma AllIdle()
      requires free == B.Upto(blocks.Length) && Tags() == B.Fresh(blocks.Length).blocks
      ensures FreeAreIdle()
    {
      forall b: nat | b < blocks.Length
        ensures b in free && blocks[b].refCount == 0
      {
        assert free[b] == b && Tags()[b].refs == 0;
      }
    }

    // -------------------------------------------------------------- free list

    method PushFree(b: nat)
      requires Linked() && b < blocks.Length && b !in free
      modifies `freeHead, `freeTail, `numFreeBlocks, `free, blocks
      ensures Linked() && free == old(free) + [b] && Tags() == old(Tags())
    {
      hide Chained;
      PushChained(blocks[..], free, b);
      ghost var after := Appended(blocks[..], b, freeTail);
      blocks[b] := blocks[b].(prevFree := freeTail, nextFree := -1);
      if freeTail == -1 {
        freeHead := b;
      } else {
        blocks[freeTail] := blocks[freeTail].(nextFree := b);
      }
      freeTail := b;
      numFreeBlocks := numFreeBlocks + 1;
      free := free + [b];
      assert blocks[..] == after;
    }

    method PopFree() returns (b: nat)
      requires Linked() && free != []
      modifies `freeHead, `freeTail, `numFreeBlocks, `free, blocks
      ensures Linked() && b == old(free)[0] && free == old(free)[1..] && Tags() == old(Tags()) && b !in free
    {
      hide Chained;
      ChainedHead(blocks[..], free);
      ChainedAt(blocks[..], free, 0);
      UnlinkChained(blocks[..], free, 0);
      ghost var after := Unlinked(blocks[..], free[0], PrevIn(free, 0), NextIn(free, 0));
      b := freeHead;
      freeHead := blocks[b].nextFree;
      if freeHead == -1 {
        freeTail := -1;
      } else {
        blocks[freeHead] := blocks[freeHead].(prevFree := -1);
      }
      blocks[b] := blocks[b].(prevFree := -1, nextFree := -1);
      numFreeBlocks := numFreeBlocks - 1;
      assert free[..0] + free[1..] == free[1..];
      free := free[1..];
      assert blocks[..] == after;
    }

    method RemoveFree(b: nat)
      requires Linked() && b in free
      modifies `freeHead, `freeTail, `numFreeBlocks, `free, blocks
      ensures Linked() && free == B.Without(old(free), b) && Tags() == old(Tags())
      ensures forall x :: x in free <==> x in old(free) && x != b
    {
      hide Chained, B.Without, Unlinked;
      ghost var before := blocks[..];
      ghost var k := RemovalPoint(b);
      Unlink(b);
      numFreeBlocks := numFreeBlocks - 1;
      UnlinkedTags(before, b, PrevIn(free, k), NextIn(free, k));
      free := free[..k] + free[k + 1..];
    }

    /** Makes b's neighbours in the list each other's neighbours. */
    method Unlink(b: nat)
      requires b < blocks.Length
      requires -1 <= blocks[b].prevFree < blocks.Length && -1 <= blocks[b].nextFree < blocks.Length
      modifies `freeHead, `freeTail, blocks
      ensures blocks[..] == Unlinked(old(blocks[..]), b, old(blocks[b].prevFree), old(blocks[b].nextFree))
      ensures freeHead == if old(blocks[b].prevFree) == -1 then old(blocks[b].nextFree) else old(freeHead)
      ensures freeTail == if old(blocks[b].nextFree) == -1 then old(blocks[b].prevFree) else old(freeTail)
    {
      var block := blocks[b];
      if block.prevFree == -1 {
        freeHead := block.nextFree;
      } else {
        blocks[block.prevFree] := blocks[block.prevFree].(nextFree := block.nextFree);
      }
      if block.nextFree == -1 {
        freeTail := block.prevFree;
      } else {
        blocks[block.nextFree] := blocks[block.nextFree].(prevFree := block.prevFree);
      }
      blocks[b] := Relink(blocks[b], -1, -1);
    }

    /** Where b is in the list, and what unlinking it there amounts to. */
    lemma RemovalPoint(b: nat) returns (k: nat)
      requires Linked() && b in free
      ensures k < |free| && free[k] == b && b < blocks.Length
      ensures blocks[b].prevFree == PrevIn(free, k) && blocks[b].nextFree == NextIn(free, k)
      ensures -1 <= PrevIn(free, k) < blocks.Length && -1 <= NextIn(free, k) < blocks.Length
      ensures B.Without(free, b) == free[..k] + free[k + 1..]
      ensures forall x :: x in free[..k] + free[k + 1..] <==> x in free && x != b
      ensures Chained(Unlinked(blocks[..], b, PrevIn(free, k), NextIn(free, k)), free[..k] + free[k + 1..])
    {
      k :| 0 <= k < |free| && free[k] == b;
      B.WithoutAt(free, k);
      ChainedAt(blocks[..], free, k);
      UnlinkChained(blocks[..], free, k);
      DropOne(free, k);
    }

    // -------------------------------------------------------------- blocks

    /** Overwrites a block's record, leaving its links alone. */
    method Retag(b: nat, r: BlockRecord)
      requires Linked() && b < blocks.Length
      requires r.prevFree == blocks[b].prevFree && r.nextFree == blocks[b].nextFree
      modifies blocks
      ensures Linked() && Tags() == old(Tags())[b := Tag(r)]
    {
      hide Chained;
      ghost var before := blocks[..];
      blocks[b] := r;
      SameLinks(before, blocks[..], free);
    }

    method TakeBlock() returns (b: nat)
      requires Valid() && free != []
      modifies this, blocks
      ensures Valid() && tables == old(tables) && b == old(free)[0] && b < blocks.Length
      ensures Store() == B.TakeBlock(old(Store())) && free == old(free)[1..]
    {
      hide Chained;
      ghost var before := Tags();
      b := PopFree();
      assert before[b] == Tag(blocks[b]);
      if blocks[b].cached {
        hashToBlock := hashToBlock - {blocks[b].hash};
        Retag(b, blocks[b].(cached := false));
      }
      Retag(b, blocks[b].(hashValid := false, refCount := 1));
    }

    method HoldBlock(b: nat)
      requires Valid() && b < blocks.Length
      modifies this, blocks
      ensures Valid() && tables == old(tables) && Store() == B.HoldBlock(old(Store()), b)
    {
      hide Chained, B.Without;
      ghost var before := Tags();
      assert before[b] == Tag(blocks[b]);
      if blocks[b].refCount == 0 {
        RemoveFree(b);
      }
      assert Tags()[b] == Tag(blocks[b]);
      Retag(b, blocks[b].(refCount := blocks[b].refCount + 1));
    }

    method DropBlock(b: nat)
      requires Valid() && b < blocks.Length && blocks[b].refCount > 0
      modifies this, blocks
      ensures Valid() && tables == old(tables) && Store() == B.DropBlock(old(Store()), b)
    {
      hide Chained;
      ghost var before := Tags();
      assert before[b] == Tag(blocks[b]);
      Retag(b, blocks[b].(refCount := blocks[b].refCount - 1));
      assert Tags()[b] == Tag(blocks[b]);
      if blocks[b].refCount == 0 {
        PushFree(b);
      }
    }

    method InsertHash(hash: Hash, b: nat)
      requires Valid() && b < blocks.Length
      modifies this, blocks
      ensures Valid() && tables == old(tables) && Store() == B.InsertHash(old(Store()), hash, b)
    {
      hide Linked;
      ghost var before := Tags();
      assert before[b] == Tag(blocks[b]);
      Retag(b, blocks[b].(hash := hash, hashValid := true));
      assert Tags()[b] == Tag(blocks[b]);
      if hash !in hashToBlock {
        hashToBlock := hashToBlock[hash := b];
        Retag(b, blocks[b].(cached := true));
        return;
      }
      var found := hashToBlock[hash];
      assert Tags()[found] == Tag(blocks[found]);
      if blocks[found].refCount == 0 {
        Retag(found, blocks[found].(cached := false));
        hashToBlock := hashToBlock[hash := b];
        assert Tags()[b] == Tag(blocks[b]);
        Retag(b, blocks[b].(cached := true));
      }
    }

    // -------------------------------------------------------------- operations

    method CacheFullBlocks(r: Request, t: seq<nat>)
      requires Valid() && P.Inside(Store(), t) && r.numComputed <= |r.tokens|
      modifies this, blocks
      ensures Valid() && tables == old(tables)
      ensures Store() == P.CacheFullBlocks(config, old(Store()), t, r.tokens, r.numComputed)
    {
      hide Chained, P.Publish;
      if !config.prefixCaching {
        return;
      }
      var n := P.NumFullBlocks(config, t, r.numComputed);
      var first := 0;
      while first < n && blocks[t[first]].hashValid
        modifies {}
        invariant first <= n
        invariant P.FirstUnpublished(Store(), t, 0, n) == P.FirstUnpublished(Store(), t, first, n)
      {
        assert Tags()[t[first]] == Tag(blocks[t[first]]);
        first := first + 1;
      }
      assert first < n ==> Tags()[t[first]] == Tag(blocks[t[first]]);
      assert first == P.FirstUnpublished(Store(), t, 0, n);
      if first == n {
        return;
      }
      assert first > 0 ==> Tags()[t[first - 1]] == Tag(blocks[t[first - 1]]);
      var hash: Hash := if first == 0 then HASH_SEED else blocks[t[first - 1]].hash;
      PublishFrom(t, r.tokens, hash, first, n);
    }

    /** The loop of CacheFullBlocks over the unpublished full blocks. */
    method PublishFrom(t: seq<nat>, tokens: seq<Token>, h: Hash, first: nat, n: nat)
      requires Valid() && P.Inside(Store(), t) && first <= n <= |t| && Span(config.blockSize, n) <= |tokens|
      modifies this, blocks
      ensures Valid() && tables == old(tables)
      ensures Store() == P.Publish(config, old(Store()), t, tokens, h, first, n)
    {
      hide Linked, FreeAreIdle, B.InsertHash, P.BlockTokens, P.Publish;
      ghost var s0 := Store();
      var hash, i := h, first;
      while i < n
        invariant first <= i <= n && Valid() && tables == old(tables) && P.Inside(Store(), t)
        invariant P.Publish(config, Store(), t, tokens, hash, i, n) == P.Publish(config, s0, t, tokens, h, first, n)
      {
        PublishStep(config, Store(), t, tokens, hash, i, n);
        hash := config.blockHash(hash, P.BlockTokens(config, tokens, i));
        InsertHash(hash, t[i]);
        i := i + 1;
      }
      PublishNone(config, Store(), t, tokens, hash, n);
    }

    method ReusePrefix(r: Request) returns (n: nat)
      requires Valid() && r.tokens != []
      modifies this, blocks
      ensures Valid() && (View(), n) == P.ReusePrefix(config, old(View()), r.id, r.tokens)
      ensures L.ReusesMost(config, old(Store()), r.tokens, n)
    {
      hide Chained, B.HoldBlock, L.ReusesMost;
      L.ReuseIsMost(config, View(), r.id, r.tokens);
      if !config.prefixCaching {
        return 0;
      }
      var numShared := P.NumSharedBlocks(config, r.tokens);
      var matched := Lookup(r.tokens, numShared);
      if matched == [] {
        return 0;
      }
      HoldAll(r.id, matched);
      n := |matched| * config.blockSize;
    }

    /** The first loop of ReusePrefix: the indexed blocks of the longest known prefix. */
    method Lookup(tokens: seq<Token>, n: nat) returns (matched: seq<nat>)
      requires Valid() && Span(config.blockSize, n) <= |tokens|
      ensures matched == P.Match(config, Store(), tokens, HASH_SEED, 0, n)
    {
      hide Linked, FreeAreIdle, P.Match, P.BlockTokens;
      var hash: Hash, i := HASH_SEED, 0;
      matched := [];
      ghost var s, all := Store(), P.Match(config, Store(), tokens, HASH_SEED, 0, n);
      assert [] + all == all;
      while i < n
        modifies {}
        invariant i <= n && matched + P.Match(config, s, tokens, hash, i, n) == all
      {
        MatchStep(config, s, tokens, hash, i, n);
        hash := config.blockHash(hash, P.BlockTokens(config, tokens, i));
        if hash !in hashToBlock {
          assert matched + [] == matched;
          return;
        }
        ghost var rest := P.Match(config, s, tokens, hash, i + 1, n);
        assert matched + ([hashToBlock[hash]] + rest) == matched + [hashToBlock[hash]] + rest;
        matched := matched + [hashToBlock[hash]];
        i := i + 1;
      }
      MatchEnd(config, s, tokens, hash, n);
      assert matched + [] == matched;
    }

    /** The second loop of ReusePrefix: holds the matched blocks and lists them in the table. */
    method HoldAll(id: Id, matched: seq<nat>)
      requires Valid() && P.Inside(Store(), matched)
      modifies this, blocks
      ensures Valid() && Store() == P.HoldAll(old(Store()), matched)
      ensures tables == old(tables)[id := P.Table(old(View()), id) + matched]
    {
      hide Linked, FreeAreIdle, B.HoldBlock, P.HoldAll, B.InBounds;
      ghost var s0, t0 := Store(), P.Table(View(), id);
      if id !in tables {
        tables := tables[id := []];
      }
      assert matched[0..] == matched && t0 + matched[..0] == t0;
      var k := 0;
      while k < |matched|
        invariant k <= |matched| && Valid() && P.Inside(Store(), matched)
        invariant P.HoldAll(Store(), matched[k..]) == P.HoldAll(s0, matched)
        invariant tables == old(tables)[id := t0 + matched[..k]]
      {
        HoldStep(Store(), matched, k);
        assert t0 + matched[..k + 1] == (t0 + matched[..k]) + [matched[k]];
        HoldInto(id, matched[k]);
        k := k + 1;
      }
      assert matched[..k] == matched && matched[k..] == [];
      HoldNone(Store());
    }

    /** One block of a lookup: held, and listed in the request's table. */
    method HoldInto(id: Id, b: nat)
      requires Valid() && id in tables && b < blocks.Length
      modifies this, blocks
      ensures Valid() && Store() == B.HoldBlock(old(Store()), b)
      ensures tables == old(tables)[id := old(tables)[id] + [b]]
    {
      hide Linked, FreeAreIdle, B.HoldBlock, B.InBounds;
      HoldBlock(b);
      tables := tables[id := tables[id] + [b]];
    }

    method AllocateSlots(r: Request, numScheduled: nat) returns (ok: bool)
      requires Valid() && numScheduled > 0 && CanAllocate(config, View(), r, numScheduled)
      modifies this, blocks
      ensures Valid() && (View(), ok) == Allocation(config, old(View()), r, numScheduled)
      ensures TakesHead(config, old(View()), r, numScheduled, View(), ok)
    {
      hide Chained, FreeAreIdle, P.CacheFullBlocks, P.TakeBlocks, TakesHead;
      AllocationTakesHead(config, View(), r, numScheduled);
      var numAllocated := if r.id in tables then |tables[r.id]| else 0;
      var numRequired := CeilDiv(r.numComputed + numScheduled, config.blockSize);
      var missing := numRequired - numAllocated;
      if missing > numFreeBlocks {
        return false;
      }
      if r.id !in tables {
        tables := tables[r.id := []];
      }
      assert View() == old(View()).(tables := old(tables)[r.id := P.Table(old(View()), r.id)]);
      TakeAll(r.id, missing);
      CacheFullBlocks(r, tables[r.id]);
      ok := true;
    }

    /** The loop of AllocateSlots. */
    method TakeAll(id: Id, missing: nat)
      requires Valid() && missing <= |free| && id in tables
      modifies this, blocks
      ensures Valid() && id in tables && View() == P.TakeBlocks(old(View()), id, missing)
    {
      hide Linked, FreeAreIdle, B.TakeBlock, P.TakeBlocks, P.PoolInBounds;
      ghost var all := P.TakeBlocks(View(), id, missing);
      var i := 0;
      while i < missing
        invariant i <= missing && Valid() && id in tables && missing - i <= |free|
        invariant P.TakeBlocks(View(), id, missing - i) == all
      {
        ghost var p := View();
        TakeStep(p, id, missing - i);
        var b := TakeBlock();
        tables := tables[id := tables[id] + [b]];
        assert View() == P.Pool(B.TakeBlock(p.store), p.tables[id := p.tables[id] + [p.store.free[0]]]);
        i := i + 1;
      }
      TakeNone(View(), id);
    }

    method ReleaseBlocks(r: Request)
      requires Valid() && P.Releasable(config, View(), r)
      modifies this, blocks
      ensures Valid() && View() == P.Release(config, old(View()), r)
      ensures free == old(free) +
                if r.id in old(tables)
                then F.Given(old(Store()), old(tables)[r.id], |old(tables)[r.id]|) else []
    {
      hide Chained, P.CacheFullBlocks, F.Given;
      if r.id in tables { F.ReleaseAppends(config, View(), r.id, r.tokens, r.numComputed); }
      if r.id !in tables {
        return;
      }
      var t := tables[r.id];
      CacheFullBlocks(r, t);
      DropAll(t);
      tables := tables - {r.id};
    }

    /** The loop of ReleaseBlocks. */
    method DropAll(t: seq<nat>)
      requires Valid() && P.Referenced(Store(), t)
      modifies this, blocks
      ensures Valid() && tables == old(tables) && Store() == P.DropAll(old(Store()), t)
    {
      hide Linked, FreeAreIdle, P.Referenced, P.DropAll, B.DropBlock;
      ghost var s0 := Store();
      assert t[0..] == t;
      var k := 0;
      while k < |t|
        invariant k <= |t| && Valid() && tables == old(tables) && P.Referenced(Store(), t[k..])
        invariant P.DropAll(Store(), t[k..]) == P.DropAll(s0, t)
      {
        DropStep(Store(), t, k);
        assert Tags()[t[k]] == Tag(blocks[t[k]]);
        DropBlock(t[k]);
        k := k + 1;
      }
      assert t[k..] == [];
      DropNone(Store());
    }

    method GetAllocatedBlocks(id: Id) returns (t: seq<nat>)
      requires id in tables
      ensures t == P.Table(View(), id)
    {
      t := tables[id];
    }
  }
}
