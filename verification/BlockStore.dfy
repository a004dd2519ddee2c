/** The block records of the paged KV cache: reference counts, the free list and the
    hash index.  Every operation here is one primitive of the cache manager; `held` in
    the invariant is the multiset of block ids that the request tables refer to. */
module BlockStore {
  import opened Types

  datatype Block = Block(refs: nat, hash: Hash, valid: bool, cached: bool)

  /** `free` lists the reclaimable blocks, least recently freed first; `index` maps a
      prefix hash to the one block that is stored under it. */
  datatype Store = Store(blocks: seq<Block>, free: seq<nat>, index: map<Hash, nat>)

  function Upto(n: nat): (r: seq<nat>)
    ensures |r| == n && forall i :: 0 <= i < n ==> r[i] == i
  {
    seq(n, i requires i >= 0 => i)
  }

  /** n blocks, none of them referenced or cached. */
  function Fresh(n: nat): Store {
    Store(seq(n, _ => Block(0, 0, false, false)), Upto(n), map[])
  }

  ghost predicate InBounds(s: Store) {
    && (forall i :: 0 <= i < |s.free| ==> s.free[i] < |s.blocks|)
    && (forall h <- s.index :: s.index[h] < |s.blocks|)
  }

  /** Deletes the first occurrence of x. */
  function Without(xs: seq<nat>, x: nat): (r: seq<nat>)
    ensures forall i :: 0 <= i < |r| ==> r[i] in xs
  {
    if xs == [] then []
    else if xs[0] == x then xs[1..]
    else [xs[0]] + Without(xs[1..], x)
  }

  lemma {:induction false} WithoutCounts(xs: seq<nat>, x: nat)
    ensures multiset(Without(xs, x)) == multiset(xs) - multiset{x}
  {
    if xs != [] {
      assert xs == [xs[0]] + xs[1..];
      if xs[0] != x { WithoutCounts(xs[1..], x); }
    }
  }

  /** On a duplicate-free list it deletes exactly the position that holds x. */
  lemma {:induction false} WithoutAt(xs: seq<nat>, k: nat)
    requires k < |xs| && forall i, j :: 0 <= i < j < |xs| ==> xs[i] != xs[j]
    ensures Without(xs, xs[k]) == xs[..k] + xs[k + 1..]
  {
    if k > 0 {
      var rest := xs[1..];
      assert xs[k] == rest[k - 1];
      WithoutAt(rest, k - 1);
      assert [xs[0]] + (rest[..k - 1] + rest[k..]) == xs[..k] + xs[k + 1..];
    }
  }

  // ---------------------------------------------------------------- primitives

  /** Reclaims the block at the head of the free list for new tokens; what it was
      cached under is forgotten. */
  function TakeBlock(s: Store): (r: Store)
    requires InBounds(s) && s.free != []
    ensures InBounds(r) && |r.blocks| == |s.blocks|
  {
    var b := s.free[0];
    var was := s.blocks[b];
    Store(s.blocks[b := Block(1, was.hash, false, false)],
          s.free[1..],
          if was.cached then s.index - {was.hash} else s.index)
  }

  function HoldBlock(s: Store, b: nat): (r: Store)
    requires InBounds(s) && b < |s.blocks|
    ensures InBounds(r) && |r.blocks| == |s.blocks| && r.index == s.index
  {
    var was := s.blocks[b];
    s.(blocks := s.blocks[b := was.(refs := was.refs + 1)],
       free := if was.refs == 0 then Without(s.free, b) else s.free)
  }

  function DropBlock(s: Store, b: nat): (r: Store)
    requires InBounds(s) && b < |s.blocks| && s.blocks[b].refs > 0
    ensures InBounds(r) && |r.blocks| == |s.blocks| && r.index == s.index
  {
    var was := s.blocks[b];
    s.(blocks := s.blocks[b := was.(refs := was.refs - 1)],
       free := if was.refs == 1 then s.free + [b] else s.free)
  }

  /** Tags a full block with its prefix hash.  It enters the index when no other block
      is stored under that hash, or when that other block is unreferenced. */
  function InsertHash(s: Store, h: Hash, b: nat): (r: Store)
    requires InBounds(s) && b < |s.blocks|
    ensures InBounds(r) && |r.blocks| == |s.blocks| && r.free == s.free
  {
    var tagged := s.blocks[b := s.blocks[b].(hash := h, valid := true)];
    if h !in s.index then
      Store(tagged[b := tagged[b].(cached := true)], s.free, s.index[h := b])
    else
      var found := s.index[h];
      if tagged[found].refs == 0 then
        var evicted := tagged[found := tagged[found].(cached := false)];
        Store(evicted[b := evicted[b].(cached := true)], s.free, s.index[h := b])
      else
        s.(blocks := tagged)
  }

  // ---------------------------------------------------------------- invariant

  /** Reference counts are occurrence counts; the free list holds exactly the
      unreferenced blocks, once each. */
  ghost predicate CountsOk(s: Store, held: multiset<nat>) {
    && (forall b :: b in held ==> b < |s.blocks|)
    && (forall b :: 0 <= b < |s.blocks| ==> s.blocks[b].refs == held[b])
    && (forall b: nat :: multiset(s.free)[b] == if b < |s.blocks| && held[b] == 0 then 1 else 0)
  }

  /** The hash index and the `cached` flags are inverse to each other. */
  ghost predicate IndexOk(s: Store) {
    && (forall h :: h in s.index ==>
          s.index[h] < |s.blocks| && s.blocks[s.index[h]].cached && s.blocks[s.index[h]].hash == h)
    && (forall b :: 0 <= b < |s.blocks| && s.blocks[b].cached ==>
          s.blocks[b].valid && s.blocks[b].hash in s.index && s.index[s.blocks[b].hash] == b)
  }

  ghost predicate StoreOk(s: Store, held: multiset<nat>) {
    && CountsOk(s, held)
    && IndexOk(s)
    // a block that is still being filled belongs to one table position only
    && (forall b :: 0 <= b < |s.blocks| && !s.blocks[b].valid ==> held[b] <= 1)
  }

  lemma OkInBounds(s: Store, held: multiset<nat>)
    requires StoreOk(s, held)
    ensures InBounds(s)
    ensures forall b <- s.free :: held[b] == 0
  {
    forall i | 0 <= i < |s.free|
      ensures s.free[i] < |s.blocks| && held[s.free[i]] == 0
    {
      assert s.free[i] in s.free;
      assert multiset(s.free)[s.free[i]] > 0;
    }
  }

  lemma OkIndex(s: Store, held: multiset<nat>)
    requires StoreOk(s, held)
    ensures IndexOk(s)
  {
  }

  lemma TakeKeepsOk(s: Store, held: multiset<nat>)
    requires InBounds(s) && StoreOk(s, held) && s.free != []
    ensures held[s.free[0]] == 0
    ensures StoreOk(TakeBlock(s), held + multiset{s.free[0]})
  {
    hide CountsOk, IndexOk;
    TakeKeepsCounts(s, held);
    TakeKeepsIndex(s, held);
  }

  lemma TakeKeepsCounts(s: Store, held: multiset<nat>)
    requires InBounds(s) && CountsOk(s, held) && s.free != []
    ensures held[s.free[0]] == 0
    ensures CountsOk(TakeBlock(s), held + multiset{s.free[0]})
  {
    var b := s.free[0];
    assert s.free == [b] + s.free[1..];
    assert multiset(s.free)[b] > 0;
    assert multiset(s.free) == multiset{b} + multiset(s.free[1..]);
  }

  lemma TakeKeepsIndex(s: Store, held: multiset<nat>)
    requires InBounds(s) && IndexOk(s) && s.free != []
    ensures IndexOk(TakeBlock(s))
    ensures forall b :: 0 <= b < |s.blocks| && !TakeBlock(s).blocks[b].valid ==> b == s.free[0] || !s.blocks[b].valid
  {
  }

  lemma HoldKeepsOk(s: Store, held: multiset<nat>, b: nat)
    requires InBounds(s) && StoreOk(s, held) && b < |s.blocks| && s.blocks[b].valid
    ensures StoreOk(HoldBlock(s, b), held + multiset{b})
  {
    HoldKeepsCounts(s, held, b);
    hide CountsOk, Without;
    assert IndexOk(HoldBlock(s, b));
  }

  lemma HoldKeepsCounts(s: Store, held: multiset<nat>, b: nat)
    requires InBounds(s) && CountsOk(s, held) && b < |s.blocks|
    ensures CountsOk(HoldBlock(s, b), held + multiset{b})
  {
    hide IndexOk, StoreOk, Without;
    var r := HoldBlock(s, b);
    WithoutCounts(s.free, b);
    assert multiset(r.free) == if held[b] == 0 then multiset(s.free) - multiset{b} else multiset(s.free);
  }

  lemma DropKeepsOk(s: Store, held: multiset<nat>, b: nat)
    requires InBounds(s) && StoreOk(s, held) && b in held
    ensures s.blocks[b].refs > 0 && StoreOk(DropBlock(s, b), held - multiset{b})
  {
    DropKeepsCounts(s, held, b);
    hide CountsOk;
    assert IndexOk(DropBlock(s, b));
  }

  lemma DropKeepsCounts(s: Store, held: multiset<nat>, b: nat)
    requires InBounds(s) && CountsOk(s, held) && b in held
    ensures s.blocks[b].refs > 0 && CountsOk(DropBlock(s, b), held - multiset{b})
  {
    hide IndexOk, StoreOk;
    assert multiset(s.free + [b]) == multiset(s.free) + multiset{b};
  }

  lemma InsertKeepsOk(s: Store, held: multiset<nat>, h: Hash, b: nat)
    requires InBounds(s) && StoreOk(s, held) && b in held && !s.blocks[b].valid
    ensures StoreOk(InsertHash(s, h, b), held)
  {
    var r := InsertHash(s, h, b);
    assert forall x :: 0 <= x < |s.blocks| ==> r.blocks[x].refs == s.blocks[x].refs;
    assert CountsOk(r, held);
    InsertKeepsIndex(s, h, b);
  }

  lemma InsertTags(s: Store, h: Hash, b: nat)
    requires InBounds(s) && b < |s.blocks|
    ensures var r := InsertHash(s, h, b);
            && r.blocks[b].valid && r.blocks[b].hash == h
            && forall x :: 0 <= x < |s.blocks| && x != b ==>
                 r.blocks[x].valid == s.blocks[x].valid && r.blocks[x].hash == s.blocks[x].hash
  {
  }

  lemma InsertKeepsIndex(s: Store, h: Hash, b: nat)
    requires InBounds(s) && IndexOk(s) && b < |s.blocks| && !s.blocks[b].valid && s.blocks[b].refs > 0
    ensures IndexOk(InsertHash(s, h, b))
  {
    var r := InsertHash(s, h, b);
    forall x | 0 <= x < |r.blocks| && r.blocks[x].cached
      ensures r.blocks[x].valid && r.blocks[x].hash in r.index && r.index[r.blocks[x].hash] == x
    {
      assert x != b ==> s.blocks[x].cached;
    }
    forall g | g in r.index
      ensures r.blocks[r.index[g]].cached && r.blocks[r.index[g]].hash == g
    {
      assert r.index[g] != b ==> g in s.index && s.index[g] == r.index[g];
    }
  }

  /** However the references are distributed, at least N - |held| blocks are free. */
  lemma FreeAtLeast(s: Store, held: multiset<nat>)
    requires CountsOk(s, held)
    ensures |s.free| + |held| >= |s.blocks|
  {
    CoverSize(multiset(s.free) + held, |s.blocks|);
  }

  lemma {:induction false} CoverSize(m: multiset<nat>, n: nat)
    requires forall b :: 0 <= b < n ==> m[b] >= 1
    ensures |m| >= n
  {
    if n > 0 {
      CoverSize(m - multiset{n - 1}, n - 1);
    }
  }
}
