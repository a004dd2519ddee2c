/** A failed admission leaves no trace, and what every reachable state looks like. */
module Admission {
  import opened Types
  import opened BlockStore
  import opened CachePool
  import opened PoolInvariant

  /** Only reference counts may differ. */
  ghost predicate SameButRefs(s: Store, s': Store) {
    && |s'.blocks| == |s.blocks| && s'.index == s.index
    && forall b :: 0 <= b < |s.blocks| ==> s'.blocks[b] == s.blocks[b].(refs := s'.blocks[b].refs)
  }

  lemma {:induction false} HoldAllRefs(s: Store, bs: seq<nat>)
    requires InBounds(s) && Inside(s, bs)
    ensures SameButRefs(s, HoldAll(s, bs))
    decreases |bs|
  {
    if bs != [] {
      HoldAllRefs(HoldBlock(s, bs[0]), bs[1..]);
    }
  }

  lemma {:induction false} DropAllRefs(s: Store, bs: seq<nat>)
    requires InBounds(s) && Referenced(s, bs)
    ensures SameButRefs(s, DropAll(s, bs))
    decreases |bs|
  {
    if bs != [] {
      DropFirst(s, bs);
      DropAllRefs(DropBlock(s, bs[0]), bs[1..]);
    }
  }

  lemma NothingToPublish(c: Config, s: Store, t: seq<nat>, tokens: seq<Token>, computed: nat)
    requires InBounds(s) && AllValid(s, t) && computed <= |tokens|
    ensures CacheFullBlocks(c, s, t, tokens, computed) == s
  {
  }

  lemma ReuseRefs(c: Config, p: Pool, id: Id, tokens: seq<Token>)
    requires PoolInBounds(p) && tokens != []
    ensures SameButRefs(p.store, ReusePrefix(c, p, id, tokens).0.store)
  {
    hide HoldAll, Match;
    if c.prefixCaching {
      HoldAllRefs(p.store, Match(c, p.store, tokens, HASH_SEED, 0, NumSharedBlocks(c, tokens)));
    }
  }

  /** Stores that agree but for the counts, and count the same tables, are the same up to
      the order of the free list. */
  lemma CountsDetermine(s: Store, s': Store, held: multiset<nat>)
    requires SameButRefs(s, s') && StoreOk(s, held) && StoreOk(s', held)
    ensures s'.blocks == s.blocks && multiset(s'.free) == multiset(s.free)
  {
    hide IndexOk;
    assert forall b :: 0 <= b < |s.blocks| ==> s'.blocks[b].refs == held[b] == s.blocks[b].refs;
    assert forall b: nat :: multiset(s'.free)[b] == multiset(s.free)[b];
  }

  /** Looking a prefix up and giving it back restores the tables, the counts, the tags and
      the hash index; at most the order of the free list differs. */
  lemma FailedAdmissionRestores(c: Config, p: Pool, id: Id, tokens: seq<Token>)
    requires PoolOk(p) && PoolInBounds(p) && id !in p.tables && tokens != []
    ensures var (p1, n) := ReusePrefix(c, p, id, tokens);
            && (id in p1.tables ==> Referenced(CacheFullBlocks(c, p1.store, p1.tables[id], tokens, n), p1.tables[id]))
            && var p' := ReleaseBlocks(c, p1, id, tokens, n);
               && p'.tables == p.tables && p'.store.index == p.store.index && p'.store.blocks == p.store.blocks
               && multiset(p'.store.free) == multiset(p.store.free)
  {
    hide StoreOk, TableOk, ReusePrefix, CacheFullBlocks, DropAll, OthersKept, AllTagsKept;
    var (p1, n) := ReusePrefix(c, p, id, tokens);
    ReuseKeepsOk(c, p, id, tokens);
    ReuseRefs(c, p, id, tokens);
    if id in p1.tables {
      NothingToPublish(c, p1.store, p1.tables[id], tokens, n);
      ReleaseKeepsOk(c, p1, id, tokens, n, n);
      DropAllRefs(p1.store, p1.tables[id]);
      CountsDetermine(p.store, ReleaseBlocks(c, p1, id, tokens, n).store, Held(p.tables));
    } else {
      HeldWithout(p1.tables, id);
      CountsDetermine(p.store, p1.store, Held(p.tables));
    }
  }
}
