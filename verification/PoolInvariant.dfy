/** What every cache manager operation keeps, whatever the hash function does: block
    conservation, the hash index, and the shape of each request table. */
module PoolInvariant {
  import opened Types
  import opened Arith
  import opened BlockStore
  import opened CachePool

  // ---------------------------------------------------------------- conservation

  /** Every block occurrence in the request tables. */
  ghost function Held(tables: map<Id, seq<nat>>): multiset<nat>
    decreases |tables|
  {
    if tables == map[] then multiset{}
    else
      var id :| id in tables;
      assert |tables - {id}| < |tables|;
      multiset(tables[id]) + Held(tables - {id})
  }

  lemma {:induction false} HeldSplit(tables: map<Id, seq<nat>>, id: Id)
    requires id in tables
    ensures Held(tables) == multiset(tables[id]) + Held(tables - {id})
    decreases |tables|
  {
    var k :| k in tables && Held(tables) == multiset(tables[k]) + Held(tables - {k});
    if k != id {
      HeldSplit(tables - {k}, id);
      HeldSplit(tables - {id}, k);
      assert tables - {k} - {id} == tables - {id} - {k};
    }
  }

  lemma HeldUpdate(tables: map<Id, seq<nat>>, id: Id, t: seq<nat>)
    ensures Held(tables[id := t]) == multiset(t) + Held(tables - {id})
  {
    HeldSplit(tables[id := t], id);
    assert tables[id := t] - {id} == tables - {id};
  }

  lemma HeldWithout(tables: map<Id, seq<nat>>, id: Id)
    requires id !in tables
    ensures tables - {id} == tables
  {
  }

  lemma HeldContains(tables: map<Id, seq<nat>>, id: Id)
    requires id in tables
    ensures multiset(tables[id]) <= Held(tables)
    ensures forall b <- tables[id] :: b in Held(tables)
  {
    HeldSplit(tables, id);
    forall b | b in tables[id]
      ensures b in Held(tables)
    {
      assert b in multiset(tables[id]);
    }
  }

  /** A block referenced once sits at one position of one table. */
  lemma SoleOwner(tables: map<Id, seq<nat>>, id: Id, i: nat, id': Id, i': nat)
    requires id in tables && id' in tables && i < |tables[id]| && i' < |tables[id']|
    requires tables[id][i] == tables[id'][i'] && Held(tables)[tables[id][i]] <= 1
    ensures id == id' && i == i'
  {
    var b := tables[id][i];
    HeldSplit(tables, id);
    assert b in multiset(tables[id]) && b in multiset(tables[id']);
    if id != id' {
      HeldSplit(tables - {id}, id');
    } else if i < i' {
      CountTwice(tables[id], i, i');
    } else if i' < i {
      CountTwice(tables[id], i', i);
    }
  }

  ghost predicate PoolOk(p: Pool) {
    StoreOk(p.store, Held(p.tables))
  }

  lemma OkPoolInBounds(p: Pool)
    requires PoolOk(p)
    ensures PoolInBounds(p)
  {
    OkInBounds(p.store, Held(p.tables));
    forall id | id in p.tables
      ensures Inside(p.store, p.tables[id])
    {
      HeldContains(p.tables, id);
      assert forall i :: 0 <= i < |p.tables[id]| ==> p.tables[id][i] in p.tables[id];
    }
  }

  // ---------------------------------------------------------------- tables

  /** The published blocks form a prefix of the table, lie within the first `filled`
      tokens, and carry the hash a lookup from the seed would compute. */
  ghost predicate TableOk(c: Config, s: Store, t: seq<nat>, tokens: seq<Token>, filled: nat) {
    && filled <= |tokens|
    && Inside(s, t)
    && (forall i :: 0 <= i < |t| && s.blocks[t[i]].valid ==>
          Span(c.blockSize, i + 1) <= filled && s.blocks[t[i]].hash == Chain(c, tokens, i + 1))
    && (forall i, j :: 0 <= i < j < |t| && s.blocks[t[j]].valid ==> s.blocks[t[i]].valid)
  }

  lemma {:induction false} ChainPrefix(c: Config, P: seq<Token>, Q: seq<Token>, n: nat)
    requires P <= Q && Span(c.blockSize, n) <= |P|
    ensures Chain(c, P, n) == Chain(c, Q, n)
  {
    if n > 0 {
      ChainPrefix(c, P, Q, n - 1);
      assert BlockTokens(c, P, n - 1) == BlockTokens(c, Q, n - 1);
    }
  }

  lemma TableOkLater(
    c: Config, s: Store, t: seq<nat>, tokens: seq<Token>, filled: nat, tokens': seq<Token>, filled': nat)
    requires TableOk(c, s, t, tokens, filled) && tokens <= tokens' && filled <= filled' <= |tokens'|
    ensures TableOk(c, s, t, tokens', filled')
  {
    forall i | 0 <= i < |t| && s.blocks[t[i]].valid
      ensures Span(c.blockSize, i + 1) <= filled' && s.blocks[t[i]].hash == Chain(c, tokens', i + 1)
    {
      ChainPrefix(c, tokens, tokens', i + 1);
    }
  }

  ghost predicate SameTag(s: Store, s': Store, b: nat) {
    b < |s.blocks| == |s'.blocks| && s'.blocks[b].valid == s.blocks[b].valid && s'.blocks[b].hash == s.blocks[b].hash
  }

  /** An operation for request `id` leaves every other table and its blocks' tags alone. */
  ghost predicate OthersKept(p: Pool, p': Pool, id: Id) {
    && |p'.store.blocks| == |p.store.blocks|
    && (forall o :: o != id ==> (o in p.tables <==> o in p'.tables))
    && (forall o :: o != id && o in p.tables ==>
          && p'.tables[o] == p.tables[o]
          && forall i :: 0 <= i < |p.tables[o]| ==> SameTag(p.store, p'.store, p.tables[o][i]))
  }

  /** Tags change only on blocks that no table but `id`'s refers to. */
  ghost predicate TagsKept(s: Store, s': Store, others: multiset<nat>) {
    |s'.blocks| == |s.blocks| && forall b :: b in others && b < |s.blocks| ==> SameTag(s, s', b)
  }

  lemma OthersKeptFromTags(p: Pool, p': Pool, id: Id)
    requires PoolInBounds(p)
    requires TagsKept(p.store, p'.store, Held(p.tables - {id}))
    requires p'.tables - {id} == p.tables - {id}
    ensures OthersKept(p, p', id)
  {
    forall o | o != id
      ensures o in p.tables <==> o in p'.tables
      ensures o in p.tables ==> p'.tables[o] == p.tables[o]
    {
      assert o in p.tables - {id} <==> o in p.tables;
      assert o in p'.tables - {id} <==> o in p'.tables;
    }
    forall o, i | o != id && o in p.tables && 0 <= i < |p.tables[o]|
      ensures SameTag(p.store, p'.store, p.tables[o][i])
    {
      assert o in p.tables - {id};
      HeldContains(p.tables - {id}, o);
      assert p.tables[o][i] in p.tables[o];
    }
  }

  // ---------------------------------------------------------------- publication

  /** A block still being filled has one owner and one position. */
  lemma UnpublishedIsSole(s: Store, t: seq<nat>, others: multiset<nat>, i: nat)
    requires StoreOk(s, multiset(t) + others)
    requires i < |t| && t[i] < |s.blocks| && !s.blocks[t[i]].valid
    ensures t[i] !in others
    ensures forall j :: 0 <= j < |t| && j != i ==> t[j] != t[i]
  {
    assert t[i] in multiset(t);
    forall j | 0 <= j < |t| && j != i
      ensures t[j] != t[i]
    {
      if t[i] == t[j] {
        if i < j { CountTwice(t, i, j); } else { CountTwice(t, j, i); }
      }
    }
  }

  /** Block b is published under the hash of block i of `tokens`. */
  ghost predicate HoldsBlock(c: Config, s: Store, tokens: seq<Token>, i: nat, b: nat) {
    && b < |s.blocks| && s.blocks[b].valid
    && Span(c.blockSize, i + 1) <= |tokens| && s.blocks[b].hash == Chain(c, tokens, i + 1)
  }

  /** How far a partly published table has got: blocks below i are tagged, the rest not. */
  ghost predicate PublishedTo(c: Config, s: Store, t: seq<nat>, tokens: seq<Token>, i: nat) {
    && i <= |t| && Span(c.blockSize, i) <= |tokens| && Inside(s, t)
    && (forall j :: 0 <= j < i ==> HoldsBlock(c, s, tokens, j, t[j]))
    && (forall j :: i <= j < |t| ==> !s.blocks[t[j]].valid)
  }

  lemma PublishOne(c: Config, s: Store, t: seq<nat>, tokens: seq<Token>, h: Hash, i: nat, others: multiset<nat>)
    requires InBounds(s) && StoreOk(s, multiset(t) + others)
    requires PublishedTo(c, s, t, tokens, i) && i < |t| && Span(c.blockSize, i + 1) <= |tokens|
    requires h == Chain(c, tokens, i + 1)
    ensures var s' := InsertHash(s, h, t[i]);
            StoreOk(s', multiset(t) + others) && PublishedTo(c, s', t, tokens, i + 1) && TagsKept(s, s', others)
  {
    hide StoreOk, Chain, InsertHash;
    UnpublishedIsSole(s, t, others, i);
    InsertTags(s, h, t[i]);
    assert t[i] in multiset(t) + others by { assert t[i] in multiset(t); }
    InsertKeepsOk(s, multiset(t) + others, h, t[i]);
  }

  lemma {:induction false} PublishKeepsOk(
    c: Config, s: Store, t: seq<nat>, tokens: seq<Token>, h: Hash, i: nat, n: nat, others: multiset<nat>)
    requires InBounds(s) && StoreOk(s, multiset(t) + others)
    requires PublishedTo(c, s, t, tokens, i) && i <= n <= |t| && Span(c.blockSize, n) <= |tokens|
    requires h == Chain(c, tokens, i)
    ensures var s' := Publish(c, s, t, tokens, h, i, n);
            StoreOk(s', multiset(t) + others) && PublishedTo(c, s', t, tokens, n) && TagsKept(s, s', others)
            && s'.free == s.free
    decreases n - i
  {
    hide StoreOk, InsertHash;
    if i < n {
      SpanGrows(c.blockSize, i + 1, n);
      var h' := c.blockHash(h, BlockTokens(c, tokens, i));
      assert h' == Chain(c, tokens, i + 1);
      PublishOne(c, s, t, tokens, h', i, others);
      assert t[i] in multiset(t);
      PublishKeepsOk(c, InsertHash(s, h', t[i]), t, tokens, h', i + 1, n, others);
    }
  }

  /** The published blocks of a table are the ones before the first unpublished one. */
  lemma UnpublishedFrom(c: Config, s: Store, t: seq<nat>, tokens: seq<Token>, filled: nat, first: nat)
    requires TableOk(c, s, t, tokens, filled) && first < |t| && Span(c.blockSize, first) <= |tokens|
    requires (forall j :: 0 <= j < first ==> s.blocks[t[j]].valid) && !s.blocks[t[first]].valid
    ensures PublishedTo(c, s, t, tokens, first)
    ensures first > 0 ==> s.blocks[t[first - 1]].hash == Chain(c, tokens, first)
  {
    assert forall j :: first < j < |t| ==> !s.blocks[t[j]].valid;
    forall j | 0 <= j < first
      ensures HoldsBlock(c, s, tokens, j, t[j])
    {
      assert s.blocks[t[j]].valid;
    }
  }

  /** The resumed hash equals the recomputed one, so publication keeps the table's shape. */
  lemma CacheFullKeepsOk(
    c: Config, s: Store, t: seq<nat>, tokens: seq<Token>, filled: nat, computed: nat, others: multiset<nat>)
    requires StoreOk(s, multiset(t) + others) && InBounds(s)
    requires TableOk(c, s, t, tokens, filled) && filled <= computed <= |tokens|
    ensures var s' := CacheFullBlocks(c, s, t, tokens, computed);
            StoreOk(s', multiset(t) + others) && TableOk(c, s', t, tokens, computed)
            && TagsKept(s, s', others) && s'.free == s.free
  {
    hide StoreOk, Publish, PublishedTo, TableOk, NumFullBlocks;
    var n := NumFullBlocks(c, t, computed);
    OkInside(c, s, t, tokens, filled);
    var first := FirstUnpublished(s, t, 0, n);
    if c.prefixCaching && first < n {
      SpanGrows(c.blockSize, first, n);
      UnpublishedFrom(c, s, t, tokens, filled, first);
      PublishKeepsOk(c, s, t, tokens, Chain(c, tokens, first), first, n, others);
      PublishedIsTable(c, CacheFullBlocks(c, s, t, tokens, computed), t, tokens, n, computed);
    } else {
      TableOkLater(c, s, t, tokens, filled, tokens, computed);
    }
  }

  lemma OkInside(c: Config, s: Store, t: seq<nat>, tokens: seq<Token>, filled: nat)
    requires TableOk(c, s, t, tokens, filled)
    ensures Inside(s, t)
  {
  }

  /** A table of which the first n blocks are published, all of them computed. */
  lemma PublishedIsTable(c: Config, s: Store, t: seq<nat>, tokens: seq<Token>, n: nat, computed: nat)
    requires Inside(s, t) && PublishedTo(c, s, t, tokens, n)
    requires n <= |t| && Span(c.blockSize, n) <= computed <= |tokens|
    ensures TableOk(c, s, t, tokens, computed)
  {
    hide Chain;
    forall i | 0 <= i < |t| && s.blocks[t[i]].valid
      ensures Span(c.blockSize, i + 1) <= computed && s.blocks[t[i]].hash == Chain(c, tokens, i + 1)
    {
      assert i < n;
      SpanGrows(c.blockSize, i + 1, n);
      assert HoldsBlock(c, s, tokens, i, t[i]);
    }
  }

  // ---------------------------------------------------------------- prefix reuse

  ghost predicate AllTagsKept(s: Store, s': Store) {
    && |s'.blocks| == |s.blocks|
    && forall b :: 0 <= b < |s.blocks| ==>
         s'.blocks[b].valid == s.blocks[b].valid && s'.blocks[b].hash == s.blocks[b].hash
  }

  lemma HoldTags(s: Store, b: nat)
    requires InBounds(s) && b < |s.blocks|
    ensures AllTagsKept(s, HoldBlock(s, b))
  {
  }

  lemma MultisetCons(bs: seq<nat>, held: multiset<nat>)
    requires bs != []
    ensures held + multiset{bs[0]} + multiset(bs[1..]) == held + multiset(bs)
  {
    assert bs == [bs[0]] + bs[1..];
  }

  ghost predicate AllValid(s: Store, t: seq<nat>) {
    forall i :: 0 <= i < |t| ==> t[i] < |s.blocks| && s.blocks[t[i]].valid
  }

  /** The blocks in r are published under the hashes of blocks i, i + 1, ... of `tokens`. */
  ghost predicate Holding(c: Config, s: Store, tokens: seq<Token>, i: nat, r: seq<nat>) {
    && Inside(s, r)
    && forall j :: 0 <= j < |r| ==> HoldsBlock(c, s, tokens, i + j, r[j])
  }

  /** A lookup returns the published blocks of the request's own first blocks, in order. */
  lemma {:induction false} MatchFinds(c: Config, s: Store, tokens: seq<Token>, h: Hash, i: nat, n: nat)
    requires InBounds(s) && IndexOk(s)
    requires i <= n && Span(c.blockSize, n) <= |tokens| && Span(c.blockSize, i) <= |tokens|
    requires h == Chain(c, tokens, i)
    ensures Holding(c, s, tokens, i, Match(c, s, tokens, h, i, n))
    decreases n - i
  {
    if i < n {
      SpanGrows(c.blockSize, i + 1, n);
      var h' := c.blockHash(h, BlockTokens(c, tokens, i));
      assert h' == Chain(c, tokens, i + 1);
      if h' in s.index {
        MatchFinds(c, s, tokens, h', i + 1, n);
        var r, r' := Match(c, s, tokens, h, i, n), Match(c, s, tokens, h', i + 1, n);
        assert s.blocks[s.index[h']].cached;
        forall j | 0 <= j < |r|
          ensures HoldsBlock(c, s, tokens, i + j, r[j])
        {
          if j > 0 {
            assert HoldsBlock(c, s, tokens, (i + 1) + (j - 1), r'[j - 1]);
          }
        }
      }
    }
  }

  lemma MultisetUncons(bs: seq<nat>, held: multiset<nat>)
    requires bs != []
    ensures multiset(bs) + held - multiset{bs[0]} == multiset(bs[1..]) + held
  {
    assert bs == [bs[0]] + bs[1..];
  }

  lemma {:induction false} HoldAllKeepsOk(s: Store, bs: seq<nat>, held: multiset<nat>)
    requires InBounds(s) && Inside(s, bs) && StoreOk(s, held)
    requires forall i :: 0 <= i < |bs| ==> s.blocks[bs[i]].valid
    ensures StoreOk(HoldAll(s, bs), held + multiset(bs)) && AllTagsKept(s, HoldAll(s, bs))
    decreases |bs|
  {
    hide StoreOk, HoldBlock;
    if bs == [] {
      assert held + multiset(bs) == held;
    } else {
      HoldKeepsOk(s, held, bs[0]);
      HoldTags(s, bs[0]);
      HoldAllKeepsOk(HoldBlock(s, bs[0]), bs[1..], held + multiset{bs[0]});
      MultisetCons(bs, held);
    }
  }

  lemma HoldingIsTable(c: Config, s: Store, s': Store, tokens: seq<Token>, r: seq<nat>)
    requires Holding(c, s, tokens, 0, r) && AllTagsKept(s, s') && Span(c.blockSize, |r|) <= |tokens|
    ensures TableOk(c, s', r, tokens, Span(c.blockSize, |r|)) && AllValid(s', r)
  {
    hide Chain;
    forall i | 0 <= i < |r|
      ensures s'.blocks[r[i]].valid && s'.blocks[r[i]].hash == Chain(c, tokens, i + 1)
      ensures Span(c.blockSize, i + 1) <= Span(c.blockSize, |r|)
    {
      SpanGrows(c.blockSize, i + 1, |r|);
      assert HoldsBlock(c, s, tokens, 0 + i, r[i]);
    }
  }

  lemma ReuseHolds(c: Config, s: Store, tokens: seq<Token>, matched: seq<nat>, held: multiset<nat>)
    requires InBounds(s) && StoreOk(s, held) && tokens != []
    requires matched == Match(c, s, tokens, HASH_SEED, 0, NumSharedBlocks(c, tokens))
    ensures Span(c.blockSize, |matched|) <= |tokens|
    ensures var s' := HoldAll(s, matched);
            && StoreOk(s', held + multiset(matched)) && AllTagsKept(s, s')
            && TableOk(c, s', matched, tokens, Span(c.blockSize, |matched|)) && AllValid(s', matched)
  {
    hide StoreOk, IndexOk, Match, HoldAll, TableOk;
    OkIndex(s, held);
    var n := NumSharedBlocks(c, tokens);
    SpanGrows(c.blockSize, |matched|, n);
    MatchFinds(c, s, tokens, HASH_SEED, 0, n);
    forall i | 0 <= i < |matched|
      ensures s.blocks[matched[i]].valid
    {
      assert HoldsBlock(c, s, tokens, 0 + i, matched[i]);
    }
    HoldAllKeepsOk(s, matched, held);
    HoldingIsTable(c, s, HoldAll(s, matched), tokens, matched);
  }

  /** What a lookup takes: the matched blocks, held once more, become the table. */
  lemma ReuseParts(c: Config, p: Pool, id: Id, tokens: seq<Token>) returns (matched: seq<nat>)
    requires PoolOk(p) && PoolInBounds(p) && id !in p.tables && tokens != []
    ensures var (p', n) := ReusePrefix(c, p, id, tokens);
            && n == Span(c.blockSize, |matched|) && (n > 0 <==> matched != [])
            && p' == (if n > 0 then Pool(p'.store, p.tables[id := matched]) else p)
            && StoreOk(p'.store, Held(p.tables) + multiset(matched)) && p'.store.index == p.store.index
            && TableOk(c, p'.store, matched, tokens, n) && AllValid(p'.store, matched)
            && AllTagsKept(p.store, p'.store)
  {
    hide StoreOk, Match, Chain, HoldAll, TableOk, NumSharedBlocks, Span;
    matched := [];
    NothingHeld(c, p, tokens);
    if c.prefixCaching {
      matched := Match(c, p.store, tokens, HASH_SEED, 0, NumSharedBlocks(c, tokens));
      ReuseHolds(c, p.store, tokens, matched, Held(p.tables));
      assert [] + matched == matched;
      SpanIsProduct(c.blockSize, |matched|);
      if matched != [] { MulStep(0, |matched|, c.blockSize); }
    }
  }

  lemma NothingHeld(c: Config, p: Pool, tokens: seq<Token>)
    requires PoolOk(p)
    ensures Span(c.blockSize, 0) == 0 && TableOk(c, p.store, [], tokens, 0) && AllValid(p.store, [])
    ensures AllTagsKept(p.store, p.store) && StoreOk(p.store, Held(p.tables) + multiset([]))
  {
    hide StoreOk;
    assert Held(p.tables) + multiset([]) == Held(p.tables);
  }

  /** A table for a request that had none. */
  lemma NewTable(p: Pool, s': Store, id: Id, t: seq<nat>)
    requires id !in p.tables && StoreOk(s', Held(p.tables) + multiset(t))
    ensures PoolOk(Pool(s', p.tables[id := t])) && p.tables[id := t] - {id} == p.tables
  {
    hide StoreOk;
    HeldWithout(p.tables, id);
    HeldUpdate(p.tables, id, t);
    assert p.tables[id := t] - {id} == p.tables;
    assert Held(p.tables[id := t]) == Held(p.tables) + multiset(t);
  }

  lemma ReuseKeepsOk(c: Config, p: Pool, id: Id, tokens: seq<Token>)
    requires PoolOk(p) && PoolInBounds(p) && id !in p.tables && tokens != []
    ensures var (p', n) := ReusePrefix(c, p, id, tokens);
            && PoolOk(p') && OthersKept(p, p', id)
            && p'.tables - {id} == p.tables
            && (id in p'.tables <==> n > 0)
            && n == Span(c.blockSize, |Table(p', id)|)
            && TableOk(c, p'.store, Table(p', id), tokens, n) && AllValid(p'.store, Table(p', id))
            && AllTagsKept(p.store, p'.store) && p'.store.index == p.store.index
  {
    hide StoreOk, ReusePrefix, OthersKept, TableOk, PoolInBounds, Span;
    var (p', n) := ReusePrefix(c, p, id, tokens);
    var matched := ReuseParts(c, p, id, tokens);
    HeldWithout(p.tables, id);
    if n > 0 { NewTable(p, p'.store, id, matched); }
    OthersKeptFromTags(p, p', id);
  }

  // ---------------------------------------------------------------- allocation

  /** Taking blocks extends the table by blocks no table referred to, all unpublished. */
  ghost predicate Extended(p: Pool, p': Pool, id: Id, n: nat) {
    && id in p.tables && id in p'.tables
    && p'.tables - {id} == p.tables - {id}
    && p.tables[id] <= p'.tables[id] && |p'.tables[id]| == |p.tables[id]| + n
    && |p'.store.blocks| == |p.store.blocks| && Inside(p'.store, p'.tables[id])
    && (forall i :: |p.tables[id]| <= i < |p'.tables[id]| ==> !p'.store.blocks[p'.tables[id][i]].valid)
    && FewerValid(p.store, p'.store)
    && TagsKept(p.store, p'.store, Held(p.tables))
  }

  ghost predicate FewerValid(s: Store, s': Store) {
    && |s'.blocks| == |s.blocks|
    && forall b :: 0 <= b < |s.blocks| && s'.blocks[b].valid ==>
         s.blocks[b].valid && s'.blocks[b].hash == s.blocks[b].hash
  }

  lemma HeldGrows(tables: map<Id, seq<nat>>, tables': map<Id, seq<nat>>, id: Id)
    requires id in tables && id in tables' && tables - {id} == tables' - {id} && tables[id] <= tables'[id]
    ensures Held(tables) <= Held(tables')
  {
    HeldSplit(tables, id);
    HeldSplit(tables', id);
    var t, t' := tables[id], tables'[id];
    assert t' == t + t'[|t|..];
    assert multiset(t') == multiset(t) + multiset(t'[|t|..]);
  }

  lemma HeldAppend(tables: map<Id, seq<nat>>, id: Id, b: nat)
    requires id in tables
    ensures Held(tables[id := tables[id] + [b]]) == Held(tables) + multiset{b}
  {
    HeldUpdate(tables, id, tables[id] + [b]);
    HeldSplit(tables, id);
    assert multiset(tables[id] + [b]) == multiset(tables[id]) + multiset{b};
  }

  lemma TakeTags(s: Store, held: multiset<nat>)
    requires InBounds(s) && s.free != [] && held[s.free[0]] == 0
    ensures FewerValid(s, TakeBlock(s)) && TagsKept(s, TakeBlock(s), held)
    ensures !TakeBlock(s).blocks[s.free[0]].valid
  {
  }

  lemma TakeOneKeepsOk(p: Pool, id: Id)
    requires PoolOk(p) && PoolInBounds(p) && id in p.tables && p.store.free != []
    ensures var p' := Pool(TakeBlock(p.store), p.tables[id := p.tables[id] + [p.store.free[0]]]);
            PoolOk(p') && PoolInBounds(p') && Extended(p, p', id, 1)
  {
    hide StoreOk, TakeBlock;
    var b := p.store.free[0];
    var p' := Pool(TakeBlock(p.store), p.tables[id := p.tables[id] + [b]]);
    TakeKeepsOk(p.store, Held(p.tables));
    TakeTags(p.store, Held(p.tables));
    HeldAppend(p.tables, id, b);
    OkPoolInBounds(p');
    assert p'.tables - {id} == p.tables - {id};
  }

  lemma ExtendedTrans(p: Pool, p1: Pool, p2: Pool, id: Id, n: nat, m: nat)
    requires PoolInBounds(p) && PoolInBounds(p1)
    requires Extended(p, p1, id, n) && Extended(p1, p2, id, m)
    ensures Extended(p, p2, id, n + m)
  {
    HeldGrows(p.tables, p1.tables, id);
    HeldContains(p1.tables, id);
    var t, t1, t2 := p.tables[id], p1.tables[id], p2.tables[id];
    forall i | |t| <= i < |t2|
      ensures !p2.store.blocks[t2[i]].valid
    {
      if i < |t1| {
        assert t2[i] == t1[i] && t1[i] in t1;
        assert SameTag(p1.store, p2.store, t1[i]);
      }
    }
    forall b | b in Held(p.tables) && b < |p.store.blocks|
      ensures SameTag(p.store, p2.store, b)
    {
      assert b in Held(p1.tables);
    }
  }

  lemma {:induction false} TakeBlocksKeepsOk(p: Pool, id: Id, n: nat)
    requires PoolOk(p) && PoolInBounds(p) && id in p.tables && n <= |p.store.free|
    ensures PoolOk(TakeBlocks(p, id, n)) && Extended(p, TakeBlocks(p, id, n), id, n)
    decreases n
  {
    hide PoolOk;
    if n > 0 {
      TakeOneKeepsOk(p, id);
      var p1 := Pool(TakeBlock(p.store), p.tables[id := p.tables[id] + [p.store.free[0]]]);
      TakeBlocksKeepsOk(p1, id, n - 1);
      hide Extended;
      ExtendedTrans(p, p1, TakeBlocks(p1, id, n - 1), id, 1, n - 1);
    } else {
      assert p.tables - {id} == p.tables - {id};
    }
  }

  lemma ExtendedTable(c: Config, p: Pool, p': Pool, id: Id, n: nat, tokens: seq<Token>, filled: nat)
    requires Extended(p, p', id, n) && TableOk(c, p.store, p.tables[id], tokens, filled)
    ensures TableOk(c, p'.store, p'.tables[id], tokens, filled)
  {
    HeldContains(p.tables, id);
    var t, t' := p.tables[id], p'.tables[id];
    forall i | 0 <= i < |t'|
      ensures i < |t| ==> t'[i] == t[i] && SameTag(p.store, p'.store, t[i])
      ensures p'.store.blocks[t'[i]].valid ==> i < |t|
    {
      if i < |t| { assert t[i] in t; }
    }
  }

  lemma AllocateKeepsOk(c: Config, p: Pool, id: Id, tokens: seq<Token>, filled: nat, computed: nat, n: nat)
    requires PoolOk(p) && PoolInBounds(p) && NumMissing(c, p, id, computed + n) >= 0
    requires TableOk(c, p.store, Table(p, id), tokens, filled) && filled <= computed <= |tokens|
    ensures var (p', ok) := AllocateSlots(c, p, id, tokens, computed, n);
            && (ok <==> NumMissing(c, p, id, computed + n) <= |p.store.free|)
            && (!ok ==> p' == p)
            && (ok ==>
                  && PoolOk(p') && OthersKept(p, p', id) && id in p'.tables
                  && p'.tables - {id} == p.tables - {id}
                  && Table(p, id) <= p'.tables[id]
                  && |p'.tables[id]| == CeilDiv(computed + n, c.blockSize)
                  && TableOk(c, p'.store, p'.tables[id], tokens, computed))
  {
    hide StoreOk, TableOk, CacheFullBlocks, TakeBlocks;
    var missing := NumMissing(c, p, id, computed + n);
    if missing <= |p.store.free| {
      var p0 := p.(tables := p.tables[id := Table(p, id)]);
      AddEmptyTable(p, id);
      TakeBlocksKeepsOk(p0, id, missing);
      var p1 := TakeBlocks(p0, id, missing);
      ExtendedTable(c, p0, p1, id, missing, tokens, filled);
      HeldSplit(p1.tables, id);
      ghost var others := Held(p1.tables - {id});
      CacheFullKeepsOk(c, p1.store, p1.tables[id], tokens, filled, computed, others);
      AllocateTags(p, p0, p1, id, missing, CacheFullBlocks(c, p1.store, p1.tables[id], tokens, computed));
    }
  }

  lemma AddEmptyTable(p: Pool, id: Id)
    ensures var p0 := p.(tables := p.tables[id := Table(p, id)]);
            Held(p0.tables) == Held(p.tables) && p0.tables - {id} == p.tables - {id}
  {
    var p0 := p.(tables := p.tables[id := Table(p, id)]);
    HeldUpdate(p.tables, id, Table(p, id));
    assert p0.tables - {id} == p.tables - {id};
    if id in p.tables { HeldSplit(p.tables, id); } else { HeldWithout(p.tables, id); }
  }

  lemma AllocateTags(p: Pool, p0: Pool, p1: Pool, id: Id, n: nat, s: Store)
    requires PoolInBounds(p) && p0.store == p.store && p0.tables - {id} == p.tables - {id}
    requires Extended(p0, p1, id, n) && TagsKept(p1.store, s, Held(p1.tables - {id}))
    ensures OthersKept(p, p1.(store := s), id)
  {
    HeldSplit(p0.tables, id);
    assert forall b :: b in Held(p.tables - {id}) ==> b in Held(p0.tables);
    OthersKeptFromTags(p, p1.(store := s), id);
  }

  // ---------------------------------------------------------------- release

  lemma DropTags(s: Store, b: nat)
    requires InBounds(s) && b < |s.blocks| && s.blocks[b].refs > 0
    ensures AllTagsKept(s, DropBlock(s, b))
  {
  }

  lemma OkReferenced(s: Store, bs: seq<nat>, others: multiset<nat>)
    requires StoreOk(s, multiset(bs) + others)
    ensures Referenced(s, bs)
    ensures bs != [] ==> bs[0] in multiset(bs) + others && s.blocks[bs[0]].refs > 0
  {
    forall i | 0 <= i < |bs|
      ensures bs[i] < |s.blocks| && s.blocks[bs[i]].refs >= multiset(bs)[bs[i]]
    {
      assert bs[i] in multiset(bs) && bs[i] in multiset(bs) + others;
    }
    if bs != [] { assert bs[0] in multiset(bs); }
  }

  lemma {:induction false} DropAllKeepsOk(s: Store, bs: seq<nat>, others: multiset<nat>)
    requires InBounds(s) && StoreOk(s, multiset(bs) + others)
    ensures Referenced(s, bs) && StoreOk(DropAll(s, bs), others) && AllTagsKept(s, DropAll(s, bs))
    decreases |bs|
  {
    hide StoreOk, DropBlock;
    OkReferenced(s, bs, others);
    if bs == [] {
      assert multiset(bs) + others == others;
    } else {
      DropKeepsOk(s, multiset(bs) + others, bs[0]);
      DropTags(s, bs[0]);
      MultisetUncons(bs, others);
      DropAllKeepsOk(DropBlock(s, bs[0]), bs[1..], others);
    }
  }

  lemma ReleaseKeepsOk(c: Config, p: Pool, id: Id, tokens: seq<Token>, filled: nat, computed: nat)
    requires PoolOk(p) && PoolInBounds(p) && id in p.tables
    requires TableOk(c, p.store, p.tables[id], tokens, filled) && filled <= computed <= |tokens|
    ensures Referenced(CacheFullBlocks(c, p.store, p.tables[id], tokens, computed), p.tables[id])
    ensures var p' := ReleaseBlocks(c, p, id, tokens, computed);
            PoolOk(p') && OthersKept(p, p', id) && p'.tables == p.tables - {id}
  {
    hide StoreOk, TableOk, CacheFullBlocks, DropAll;
    var t := p.tables[id];
    HeldSplit(p.tables, id);
    ghost var others := Held(p.tables - {id});
    CacheFullKeepsOk(c, p.store, t, tokens, filled, computed, others);
    var s := CacheFullBlocks(c, p.store, t, tokens, computed);
    DropAllKeepsOk(s, t, others);
    var p' := ReleaseBlocks(c, p, id, tokens, computed);
    assert p'.tables - {id} == p.tables - {id};
    OthersKeptFromTags(p, p', id);
  }
}
