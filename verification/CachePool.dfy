/** The cache manager's operations on whole request tables, as functions on values:
    prefix lookup, slot allocation, publication of full blocks and release. */
module CachePool {
  import opened Types
  import opened Arith
  import opened BlockStore

  datatype Pool = Pool(store: Store, tables: map<Id, seq<nat>>)

  function Table(p: Pool, id: Id): seq<nat> {
    if id in p.tables then p.tables[id] else []
  }

  ghost predicate PoolInBounds(p: Pool) {
    && InBounds(p.store)
    && (forall id <- p.tables :: Inside(p.store, p.tables[id]))
  }

  ghost predicate Inside(s: Store, t: seq<nat>) {
    forall i :: 0 <= i < |t| ==> t[i] < |s.blocks|
  }

  // ---------------------------------------------------------------- hashing

  function BlockTokens(c: Config, tokens: seq<Token>, i: nat): seq<Token>
    requires Span(c.blockSize, i + 1) <= |tokens|
  {
    tokens[Span(c.blockSize, i)..Span(c.blockSize, i + 1)]
  }

  /** The hash of the first n blocks of a token sequence, computed from the seed. */
  function Chain(c: Config, tokens: seq<Token>, n: nat): Hash
    requires Span(c.blockSize, n) <= |tokens|
  {
    if n == 0 then HASH_SEED
    else
      c.blockHash(Chain(c, tokens, n - 1), BlockTokens(c, tokens, n - 1))
  }

  // ---------------------------------------------------------------- operations

  function FirstUnpublished(s: Store, t: seq<nat>, i: nat, n: nat): (r: nat)
    requires Inside(s, t) && i <= n <= |t|
    ensures i <= r <= n
    ensures forall j :: i <= j < r ==> s.blocks[t[j]].valid
    ensures r < n ==> !s.blocks[t[r]].valid
    decreases n - i
  {
    if i < n && s.blocks[t[i]].valid then FirstUnpublished(s, t, i + 1, n) else i
  }

  function Publish(c: Config, s: Store, t: seq<nat>, tokens: seq<Token>, h: Hash, i: nat, n: nat): (r: Store)
    requires InBounds(s) && Inside(s, t) && i <= n <= |t| && Span(c.blockSize, n) <= |tokens|
    ensures InBounds(r) && |r.blocks| == |s.blocks|
    decreases n - i
  {
    if i == n then s
    else
      SpanGrows(c.blockSize, i + 1, n);
      var h' := c.blockHash(h, BlockTokens(c, tokens, i));
      Publish(c, InsertHash(s, h', t[i]), t, tokens, h', i + 1, n)
  }

  function NumFullBlocks(c: Config, t: seq<nat>, computed: nat): (n: nat)
    ensures n <= |t| && Span(c.blockSize, n) <= computed
  {
    InUnit(computed, c.blockSize);
    SpanGrows(c.blockSize, Min(|t|, computed / c.blockSize), computed / c.blockSize);
    Min(|t|, computed / c.blockSize)
  }

  /** Publishes the full, already computed blocks of a table that are not yet published. */
  function CacheFullBlocks(c: Config, s: Store, t: seq<nat>, tokens: seq<Token>, computed: nat): (r: Store)
    requires InBounds(s) && Inside(s, t) && computed <= |tokens|
    ensures InBounds(r) && |r.blocks| == |s.blocks|
  {
    if !c.prefixCaching then s
    else
      var n := NumFullBlocks(c, t, computed);
      var first := FirstUnpublished(s, t, 0, n);
      if first == n then s
      else
        var h := if first == 0 then HASH_SEED else s.blocks[t[first - 1]].hash;
        Publish(c, s, t, tokens, h, first, n)
  }

  /** The cached blocks that hold the longest indexed prefix among blocks i..n. */
  function Match(c: Config, s: Store, tokens: seq<Token>, h: Hash, i: nat, n: nat): (r: seq<nat>)
    requires InBounds(s) && i <= n && Span(c.blockSize, n) <= |tokens|
    ensures Inside(s, r) && |r| <= n - i
    decreases n - i
  {
    if i == n then []
    else
      SpanGrows(c.blockSize, i + 1, n);
      var h' := c.blockHash(h, BlockTokens(c, tokens, i));
      if h' !in s.index then []
      else [s.index[h']] + Match(c, s, tokens, h', i + 1, n)
  }

  function HoldAll(s: Store, bs: seq<nat>): (r: Store)
    requires InBounds(s) && Inside(s, bs)
    ensures InBounds(r) && |r.blocks| == |s.blocks| && r.index == s.index
    decreases |bs|
  {
    if bs == [] then s else HoldAll(HoldBlock(s, bs[0]), bs[1..])
  }

  /** At least one token is always left to compute. */
  function NumSharedBlocks(c: Config, tokens: seq<Token>): (n: nat)
    requires tokens != []
    ensures Span(c.blockSize, n) < |tokens|
  {
    InUnit(|tokens| - 1, c.blockSize);
    (|tokens| - 1) / c.blockSize
  }

  function ReusePrefix(c: Config, p: Pool, id: Id, tokens: seq<Token>): (r: (Pool, nat))
    requires PoolInBounds(p) && tokens != []
    ensures PoolInBounds(r.0) && |r.0.store.blocks| == |p.store.blocks|
    ensures r.1 < |tokens|
  {
    if !c.prefixCaching then (p, 0)
    else
      var n := NumSharedBlocks(c, tokens);
      var matched := Match(c, p.store, tokens, HASH_SEED, 0, n);
      SpanGrows(c.blockSize, |matched|, n);
      SpanIsProduct(c.blockSize, |matched|);
      if matched == [] then (p, 0)
      else (Pool(HoldAll(p.store, matched), p.tables[id := Table(p, id) + matched]),
            |matched| * c.blockSize)
  }

  function TakeBlocks(p: Pool, id: Id, n: nat): (r: Pool)
    requires PoolInBounds(p) && n <= |p.store.free| && id in p.tables
    ensures PoolInBounds(r) && |r.store.blocks| == |p.store.blocks|
    ensures r.tables.Keys == p.tables.Keys
    decreases n
  {
    if n == 0 then p
    else
      assert p.store.free[0] in p.store.free;
      TakeBlocks(Pool(TakeBlock(p.store), p.tables[id := p.tables[id] + [p.store.free[0]]]), id, n - 1)
  }

  function NumMissing(c: Config, p: Pool, id: Id, slots: nat): int {
    CeilDiv(slots, c.blockSize) - |Table(p, id)|
  }

  function AllocateSlots(c: Config, p: Pool, id: Id, tokens: seq<Token>, computed: nat, n: nat): (r: (Pool, bool))
    requires PoolInBounds(p) && computed <= |tokens| && NumMissing(c, p, id, computed + n) >= 0
    ensures PoolInBounds(r.0) && |r.0.store.blocks| == |p.store.blocks|
    ensures r.1 ==> id in r.0.tables
  {
    var missing := NumMissing(c, p, id, computed + n);
    if missing > |p.store.free| then (p, false)
    else
      var p1 := TakeBlocks(p.(tables := p.tables[id := Table(p, id)]), id, missing);
      (p1.(store := CacheFullBlocks(c, p1.store, p1.tables[id], tokens, computed)), true)
  }

  ghost predicate Referenced(s: Store, bs: seq<nat>) {
    Inside(s, bs) && forall i :: 0 <= i < |bs| ==> s.blocks[bs[i]].refs >= multiset(bs)[bs[i]]
  }

  lemma DropFirst(s: Store, bs: seq<nat>)
    requires InBounds(s) && Referenced(s, bs) && bs != []
    ensures bs[0] < |s.blocks| && s.blocks[bs[0]].refs > 0 && Referenced(DropBlock(s, bs[0]), bs[1..])
  {
    var rest := bs[1..];
    assert bs == [bs[0]] + rest;
    assert multiset(bs) == multiset{bs[0]} + multiset(rest);
    assert multiset(bs)[bs[0]] > 0;
    forall i | 0 <= i < |rest|
      ensures rest[i] < |s.blocks| && DropBlock(s, bs[0]).blocks[rest[i]].refs >= multiset(rest)[rest[i]]
    {
      assert rest[i] == bs[i + 1];
    }
  }

  function DropAll(s: Store, bs: seq<nat>): (r: Store)
    requires InBounds(s) && Referenced(s, bs)
    ensures InBounds(r) && |r.blocks| == |s.blocks| && r.index == s.index
    decreases |bs|
  {
    if bs == [] then s
    else
      DropFirst(s, bs);
      DropAll(DropBlock(s, bs[0]), bs[1..])
  }

  function ReleaseBlocks(c: Config, p: Pool, id: Id, tokens: seq<Token>, computed: nat): (r: Pool)
    requires PoolInBounds(p) && computed <= |tokens|
    requires id in p.tables ==>
               Referenced(CacheFullBlocks(c, p.store, p.tables[id], tokens, computed), p.tables[id])
    ensures PoolInBounds(r) && |r.store.blocks| == |p.store.blocks|
  {
    if id !in p.tables then p
    else
      var s := CacheFullBlocks(c, p.store, p.tables[id], tokens, computed);
      Pool(DropAll(s, p.tables[id]), p.tables - {id})
  }

  /** No table entry counts for more references than its block has. */
  ghost predicate Releasable(c: Config, p: Pool, r: Request) {
    && PoolInBounds(p) && r.numComputed <= |r.tokens|
    && (r.id in p.tables ==>
          Referenced(CacheFullBlocks(c, p.store, p.tables[r.id], r.tokens, r.numComputed), p.tables[r.id]))
  }

  function Release(c: Config, p: Pool, r: Request): Pool
    requires Releasable(c, p, r)
  {
    ReleaseBlocks(c, p, r.id, r.tokens, r.numComputed)
  }
}
