/** What the cache blocks contain.  `kv` is the device pool, one entry per slot; U is the
    prefix-closed set of token sequences on which the chained hash is supposed injective. */
module PoolContent {
  import opened Types
  import opened Arith
  import opened BlockStore
  import opened CachePool
  import opened PoolInvariant
  import opened Decoder

  /** No two different block-aligned prefixes in U share a chained hash. */
  ghost predicate HashInjective(c: Config, U: iset<seq<Token>>) {
    forall P, Q, m: nat, n: nat ::
      (P in U && Q in U && m > 0 && n > 0 && |P| == Span(c.blockSize, m) && |Q| == Span(c.blockSize, n)
       && Chain(c, P, m) == Chain(c, Q, n)) ==> P == Q
  }

  /** All that is ever assumed about the hash; nothing if prefix caching is off. */
  ghost predicate HashTrusted(c: Config, U: iset<seq<Token>>) {
    c.prefixCaching ==> HashInjective(c, U)
  }

  ghost predicate PrefixClosed(U: iset<seq<Token>>) {
    forall P, Q {:trigger P in U, Q in U} :: Q in U && P <= Q ==> P in U
  }

  /** Block b holds the entries of block i of `tokens`, as far as the first n tokens go. */
  ghost predicate BlockHolds(c: Config, kv: seq<KV>, b: nat, tokens: seq<Token>, i: nat, n: nat) {
    && n <= |tokens|
    && Span(c.blockSize, b) + c.blockSize <= |kv|
    && forall p :: Span(c.blockSize, i) <= p < n && p < Span(c.blockSize, i) + c.blockSize ==>
         kv[Span(c.blockSize, b) + (p - Span(c.blockSize, i))] == Solo(tokens)[p]
  }

  /** The first n tokens of a request are readable through its table. */
  ghost predicate TableHolds(c: Config, kv: seq<KV>, t: seq<nat>, tokens: seq<Token>, n: nat) {
    && n <= |tokens| && n <= Span(c.blockSize, |t|)
    && forall i :: 0 <= i < |t| ==> BlockHolds(c, kv, t[i], tokens, i, n)
  }

  /** Block b is published under the hash of P, a sequence of n full blocks. */
  ghost predicate Stands(c: Config, s: Store, U: iset<seq<Token>>, b: nat, P: seq<Token>, n: nat) {
    && b < |s.blocks| && s.blocks[b].valid && P in U
    && n > 0 && |P| == Span(c.blockSize, n) && Chain(c, P, n) == s.blocks[b].hash
  }

  ghost predicate Published(c: Config, s: Store, U: iset<seq<Token>>, b: nat) {
    exists P, n: nat :: Stands(c, s, U, b, P, n)
  }

  /** Each published block stands for a prefix in U, and holds whatever its hash stands for. */
  ghost predicate CacheOk(c: Config, s: Store, kv: seq<KV>, U: iset<seq<Token>>) {
    && (forall b: nat :: b < |s.blocks| && s.blocks[b].valid ==> Published(c, s, U, b))
    && (forall b: nat, P, n: nat :: Stands(c, s, U, b, P, n) ==> BlockHolds(c, kv, b, P, n - 1, |P|))
  }

  lemma SpanInjective(c: Config, m: nat, n: nat)
    requires Span(c.blockSize, m) == Span(c.blockSize, n)
    ensures m == n
  {
    if m < n { SpanGrows(c.blockSize, m, n); }
    if n < m { SpanGrows(c.blockSize, n, m); }
  }

  /** Block contents depend only on the tokens up to the end of the block. */
  lemma HoldsPrefix(c: Config, kv: seq<KV>, b: nat, P: seq<Token>, Q: seq<Token>, i: nat, n: nat)
    requires P <= Q && n <= |P|
    ensures BlockHolds(c, kv, b, P, i, n) <==> BlockHolds(c, kv, b, Q, i, n)
  {
    SoloPrefix(Q, |P|);
    assert Q[..|P|] == P;
    assert forall j :: 0 <= j < |P| ==> Solo(P)[j] == Solo(Q)[j];
  }

  lemma HoldsFewer(c: Config, kv: seq<KV>, b: nat, tokens: seq<Token>, i: nat, n: nat, m: nat)
    requires BlockHolds(c, kv, b, tokens, i, n)
    requires m <= |tokens| && (m <= n || Span(c.blockSize, i + 1) <= n)
    ensures BlockHolds(c, kv, b, tokens, i, m)
  {
  }

  // ---------------------------------------------------------------- publication

  lemma StillPublished(c: Config, s: Store, s': Store, U: iset<seq<Token>>, b: nat)
    requires Published(c, s, U, b) && b < |s'.blocks| && b < |s.blocks|
    requires s'.blocks[b].valid && s'.blocks[b].hash == s.blocks[b].hash
    ensures Published(c, s', U, b)
  {
    hide Chain, Span;
    var P, n: nat :| Stands(c, s, U, b, P, n);
    assert Stands(c, s', U, b, P, n);
  }

  /** Tagging a block that holds block i of `tokens` keeps the cache truthful.  This is
      where injectivity is needed. */
  lemma InsertKeepsCache(
    c: Config, s: Store, kv: seq<KV>, U: iset<seq<Token>>, tokens: seq<Token>, h: Hash, b: nat, i: nat, n: nat)
    requires HashInjective(c, U) && PrefixClosed(U) && tokens in U
    requires InBounds(s) && b < |s.blocks| && CacheOk(c, s, kv, U)
    requires Span(c.blockSize, i + 1) <= n <= |tokens| && h == Chain(c, tokens, i + 1)
    requires BlockHolds(c, kv, b, tokens, i, n)
    ensures CacheOk(c, InsertHash(s, h, b), kv, U)
  {
    hide InsertHash, BlockHolds, Chain;
    InsertTags(s, h, b);
    var r := InsertHash(s, h, b);
    var P0 := tokens[..Span(c.blockSize, i + 1)];
    assert P0 <= tokens && P0 in U;
    ChainPrefix(c, P0, tokens, i + 1);
    HoldsFewer(c, kv, b, tokens, i, n, |P0|);
    HoldsPrefix(c, kv, b, P0, tokens, i, |P0|);
    forall x: nat, P, m: nat | Stands(c, r, U, x, P, m)
      ensures BlockHolds(c, kv, x, P, m - 1, |P|)
    {
      if x == b {
        assert P == P0;
        SpanInjective(c, m, i + 1);
      } else {
        assert Stands(c, s, U, x, P, m);
      }
    }
    assert Stands(c, r, U, b, P0, i + 1);
    forall x: nat | x < |r.blocks| && r.blocks[x].valid
      ensures Published(c, r, U, x)
    {
      if x != b { StillPublished(c, s, r, U, x); }
    }
  }

  lemma {:induction false} PublishKeepsCache(
    c: Config, s: Store, kv: seq<KV>, U: iset<seq<Token>>, t: seq<nat>, tokens: seq<Token>,
    h: Hash, i: nat, n: nat, written: nat)
    requires HashInjective(c, U) && PrefixClosed(U) && tokens in U
    requires InBounds(s) && Inside(s, t) && CacheOk(c, s, kv, U)
    requires i <= n <= |t| && Span(c.blockSize, n) <= written && Span(c.blockSize, i) <= |tokens|
    requires TableHolds(c, kv, t, tokens, written)
    requires h == Chain(c, tokens, i)
    ensures CacheOk(c, Publish(c, s, t, tokens, h, i, n), kv, U)
    decreases n - i
  {
    hide HashInjective, PrefixClosed, CacheOk, BlockHolds, InsertHash;
    if i < n {
      SpanGrows(c.blockSize, i + 1, n);
      var h' := c.blockHash(h, BlockTokens(c, tokens, i));
      assert h' == Chain(c, tokens, i + 1);
      assert BlockHolds(c, kv, t[i], tokens, i, written);
      InsertKeepsCache(c, s, kv, U, tokens, h', t[i], i, written);
      PublishKeepsCache(c, InsertHash(s, h', t[i]), kv, U, t, tokens, h', i + 1, n, written);
    }
  }

  lemma CacheFullKeepsCache(
    c: Config, s: Store, kv: seq<KV>, U: iset<seq<Token>>, t: seq<nat>, tokens: seq<Token>, filled: nat, computed: nat)
    requires HashTrusted(c, U) && PrefixClosed(U) && tokens in U
    requires InBounds(s) && TableOk(c, s, t, tokens, filled) && CacheOk(c, s, kv, U)
    requires filled <= computed && TableHolds(c, kv, t, tokens, computed)
    ensures CacheOk(c, CacheFullBlocks(c, s, t, tokens, computed), kv, U)
  {
    hide HashInjective, PrefixClosed, CacheOk, BlockHolds, Publish;
    if c.prefixCaching {
      var n := NumFullBlocks(c, t, computed);
      var first := FirstUnpublished(s, t, 0, n);
      if first < n {
        SpanGrows(c.blockSize, first, n);
        PublishKeepsCache(c, s, kv, U, t, tokens, Chain(c, tokens, first), first, n, computed);
      }
    }
  }

  // ---------------------------------------------------------------- operations

  lemma FewerKeepsCache(c: Config, s: Store, s': Store, kv: seq<KV>, U: iset<seq<Token>>)
    requires CacheOk(c, s, kv, U) && FewerValid(s, s')
    ensures CacheOk(c, s', kv, U)
  {
    hide BlockHolds, Chain, Span, Published;
    forall b: nat, P, n: nat | Stands(c, s', U, b, P, n)
      ensures BlockHolds(c, kv, b, P, n - 1, |P|)
    {
      assert Stands(c, s, U, b, P, n);
    }
    forall b: nat | b < |s'.blocks| && s'.blocks[b].valid
      ensures Published(c, s', U, b)
    {
      StillPublished(c, s, s', U, b);
    }
  }

  lemma PublishedHolds(
    c: Config, s: Store, kv: seq<KV>, U: iset<seq<Token>>, b: nat, tokens: seq<Token>, i: nat, n: nat)
    requires PrefixClosed(U) && tokens in U && CacheOk(c, s, kv, U)
    requires b < |s.blocks| && s.blocks[b].valid
    requires Span(c.blockSize, i + 1) <= n <= |tokens| && s.blocks[b].hash == Chain(c, tokens, i + 1)
    ensures BlockHolds(c, kv, b, tokens, i, n)
  {
    hide BlockHolds, Chain;
    var P := tokens[..Span(c.blockSize, i + 1)];
    assert P <= tokens && P in U;
    ChainPrefix(c, P, tokens, i + 1);
    assert Stands(c, s, U, b, P, i + 1);
    HoldsPrefix(c, kv, b, P, tokens, i, |P|);
    HoldsFewer(c, kv, b, tokens, i, |P|, n);
  }

  /** Whatever a lookup hands out holds the request's own prefix. */
  lemma ReuseContent(c: Config, p: Pool, kv: seq<KV>, U: iset<seq<Token>>, id: Id, tokens: seq<Token>)
    requires PrefixClosed(U) && tokens in U && tokens != []
    requires PoolOk(p) && PoolInBounds(p) && id !in p.tables && CacheOk(c, p.store, kv, U)
    ensures var (p', n) := ReusePrefix(c, p, id, tokens);
            CacheOk(c, p'.store, kv, U) && TableHolds(c, kv, Table(p', id), tokens, n)
  {
    hide PoolOk, OthersKept, ReusePrefix, BlockHolds, CacheOk, PrefixClosed;
    var (p', n) := ReusePrefix(c, p, id, tokens);
    ReuseKeepsOk(c, p, id, tokens);
    FewerKeepsCache(c, p.store, p'.store, kv, U);
    var t := Table(p', id);
    forall i | 0 <= i < |t|
      ensures BlockHolds(c, kv, t[i], tokens, i, n)
    {
      SpanGrows(c.blockSize, i + 1, |t|);
      PublishedHolds(c, p'.store, kv, U, t[i], tokens, i, n);
    }
  }

  lemma AllocateContent(
    c: Config, p: Pool, kv: seq<KV>, U: iset<seq<Token>>, id: Id, tokens: seq<Token>,
    filled: nat, computed: nat, n: nat)
    requires HashTrusted(c, U) && PrefixClosed(U) && tokens in U
    requires PoolOk(p) && PoolInBounds(p) && NumMissing(c, p, id, computed + n) >= 0
    requires TableOk(c, p.store, Table(p, id), tokens, filled) && filled <= computed <= |tokens|
    requires CacheOk(c, p.store, kv, U) && TableHolds(c, kv, Table(p, id), tokens, computed)
    requires |kv| == Span(c.blockSize, |p.store.blocks|)
    ensures var (p', ok) := AllocateSlots(c, p, id, tokens, computed, n);
            CacheOk(c, p'.store, kv, U) && (ok ==> TableHolds(c, kv, Table(p', id), tokens, computed))
  {
    var missing := NumMissing(c, p, id, computed + n);
    if missing <= |p.store.free| {
      hide PoolOk, TableOk, CacheFullBlocks, TakeBlocks, CacheOk, TableHolds, HashTrusted, PrefixClosed, Extended;
      var p0 := p.(tables := p.tables[id := Table(p, id)]);
      AllocatePrepared(p, id);
      TakeBlocksKeepsOk(p0, id, missing);
      var p1 := TakeBlocks(p0, id, missing);
      ExtendedTable(c, p0, p1, id, missing, tokens, filled);
      ExtendedContent(c, p0, p1, kv, U, id, missing, tokens, computed);
      CacheFullKeepsCache(c, p1.store, kv, U, p1.tables[id], tokens, filled, computed);
    }
  }

  lemma AllocatePrepared(p: Pool, id: Id)
    requires PoolOk(p) && PoolInBounds(p)
    ensures var p0 := p.(tables := p.tables[id := Table(p, id)]); PoolOk(p0) && PoolInBounds(p0)
  {
    hide StoreOk;
    AddEmptyTable(p, id);
  }

  lemma ExtendedContent(
    c: Config, p: Pool, p': Pool, kv: seq<KV>, U: iset<seq<Token>>, id: Id, n: nat, tokens: seq<Token>, computed: nat)
    requires Extended(p, p', id, n) && CacheOk(c, p.store, kv, U) && TableHolds(c, kv, p.tables[id], tokens, computed)
    requires |kv| == Span(c.blockSize, |p.store.blocks|)
    ensures CacheOk(c, p'.store, kv, U) && TableHolds(c, kv, p'.tables[id], tokens, computed)
  {
    hide CacheOk, Chain;
    FewerKeepsCache(c, p.store, p'.store, kv, U);
    var t, t' := p.tables[id], p'.tables[id];
    SpanGrows(c.blockSize, |t|, |t'|);
    forall i | 0 <= i < |t'|
      ensures BlockHolds(c, kv, t'[i], tokens, i, computed)
    {
      SpanGrows(c.blockSize, t'[i], |p'.store.blocks|);
      if i < |t| {
        assert t'[i] == t[i];
      } else {
        SpanGrows(c.blockSize, |t|, i);
      }
    }
  }

  lemma ReleaseContent(
    c: Config, p: Pool, kv: seq<KV>, U: iset<seq<Token>>, id: Id, tokens: seq<Token>, filled: nat, computed: nat)
    requires HashTrusted(c, U) && PrefixClosed(U) && tokens in U
    requires PoolOk(p) && PoolInBounds(p) && id in p.tables
    requires TableOk(c, p.store, p.tables[id], tokens, filled) && filled <= computed <= |tokens|
    requires CacheOk(c, p.store, kv, U) && TableHolds(c, kv, p.tables[id], tokens, computed)
    requires Referenced(CacheFullBlocks(c, p.store, p.tables[id], tokens, computed), p.tables[id])
    ensures CacheOk(c, ReleaseBlocks(c, p, id, tokens, computed).store, kv, U)
  {
    hide StoreOk, TableOk, CacheFullBlocks, DropAll, CacheOk, TableHolds, HashTrusted, PrefixClosed;
    var t := p.tables[id];
    HeldSplit(p.tables, id);
    ghost var others := Held(p.tables - {id});
    CacheFullKeepsOk(c, p.store, t, tokens, filled, computed, others);
    CacheFullKeepsCache(c, p.store, kv, U, t, tokens, filled, computed);
    var s := CacheFullBlocks(c, p.store, t, tokens, computed);
    DropAllKeepsOk(s, t, others);
    FewerKeepsCache(c, s, DropAll(s, t), kv, U);
  }
}
