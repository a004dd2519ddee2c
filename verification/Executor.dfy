/** The model runner's step over the paged cache: every scheduled token reads its context
    through the request's table, writes its own entry, and sampling requests get a token. */
module Executor {
  import opened Types
  import opened Arith
  import opened BlockStore
  import opened CachePool
  import opened PoolInvariant
  import opened PoolContent
  import opened Decoder
  import opened SchedulerModel
  import opened ScheduleStep
  import opened StepTheorems
  import opened StepContent

  /** The blocks of an entry lie in the pool and cover its last position. */
  ghost predicate Addressable(c: Config, kv: seq<KV>, e: Scheduled) {
    && e.offset + |e.tokens| <= Span(c.blockSize, |e.blocks|)
    && forall i :: 0 <= i < |e.blocks| ==> Span(c.blockSize, e.blocks[i]) + c.blockSize <= |kv|
  }

  lemma SlotInPool(c: Config, kv: seq<KV>, t: seq<nat>, p: nat)
    requires p < Span(c.blockSize, |t|)
    requires forall i :: 0 <= i < |t| ==> Span(c.blockSize, t[i]) + c.blockSize <= |kv|
    ensures UnitOf(c.blockSize, p) < |t|
    ensures Slot(c, t, p) == Span(c.blockSize, t[UnitOf(c.blockSize, p)]) + RestOf(c.blockSize, p) < |kv|
  {
    hide Slot;
    SlotIs(c, t, p);
  }

  /** The entries of the first n positions of a request, through its table. */
  function Read(c: Config, kv: seq<KV>, t: seq<nat>, n: nat): (r: seq<KV>)
    requires n <= Span(c.blockSize, |t|)
    requires forall i :: 0 <= i < |t| ==> Span(c.blockSize, t[i]) + c.blockSize <= |kv|
    ensures |r| == n
  {
    seq(n, p requires 0 <= p < n => SlotInPool(c, kv, t, p); kv[Slot(c, t, p)])
  }

  /** Computes the token at position p of entry e. */
  function WriteOne(c: Config, kv: seq<KV>, e: Scheduled, p: nat): (kv': seq<KV>)
    requires Addressable(c, kv, e) && Writes(e, p)
    ensures |kv'| == |kv|
  {
    SlotInPool(c, kv, e.blocks, p);
    kv[Slot(c, e.blocks, p) := Entry(Read(c, kv, e.blocks, p), e.tokens[p - e.offset])]
  }

  function Forward(c: Config, kv: seq<KV>, e: Scheduled, p: nat): (kv': seq<KV>)
    requires Addressable(c, kv, e) && e.offset <= p <= e.offset + |e.tokens|
    ensures |kv'| == |kv|
    decreases e.offset + |e.tokens| - p
  {
    if p == e.offset + |e.tokens| then kv else Forward(c, WriteOne(c, kv, e, p), e, p + 1)
  }

  ghost predicate AllAddressable(c: Config, kv: seq<KV>, batch: seq<Scheduled>) {
    forall i :: 0 <= i < |batch| ==> Addressable(c, kv, batch[i])
  }

  function ForwardAll(c: Config, kv: seq<KV>, batch: seq<Scheduled>, i: nat): (kv': seq<KV>)
    requires AllAddressable(c, kv, batch) && i <= |batch|
    ensures |kv'| == |kv|
    decreases |batch| - i
  {
    if i == |batch| then kv else ForwardAll(c, Forward(c, kv, batch[i], batch[i].offset), batch, i + 1)
  }

  function SampleOne(c: Config, w: World, kv: seq<KV>, e: Scheduled): Sampled
    requires Addressable(c, kv, e)
  {
    var t := w.next(e.id, Read(c, kv, e.blocks, e.offset + |e.tokens|), e.params);
    Sampled(e.id, t, w.isEos(t))
  }

  /** One token for each request that needs one, in batch order. */
  function SampleAll(c: Config, w: World, kv: seq<KV>, batch: seq<Scheduled>): (r: seq<Sampled>)
    requires AllAddressable(c, kv, batch)
  {
    if batch == [] then []
    else
      (if batch[0].needsSampling then [SampleOne(c, w, kv, batch[0])] else []) + SampleAll(c, w, kv, batch[1..])
  }

  // ---------------------------------------------------------------- what a step writes

  /** Reading a filled table yields the lone decoder's entries. */
  lemma ReadsSolo(c: Config, kv: seq<KV>, t: seq<nat>, tokens: seq<Token>, done: nat, n: nat)
    requires TableHolds(c, kv, t, tokens, done) && n <= done
    ensures Read(c, kv, t, n) == Solo(tokens[..n])
  {
    hide Slot;
    SoloPrefix(tokens, n);
    assert forall i :: 0 <= i < |t| ==> BlockHolds(c, kv, t[i], tokens, i, done);
    var r := Read(c, kv, t, n);
    forall p | 0 <= p < n
      ensures r[p] == Solo(tokens)[p]
    {
      SlotInPool(c, kv, t, p);
      Position(c.blockSize, p);
      assert BlockHolds(c, kv, t[UnitOf(c.blockSize, p)], tokens, UnitOf(c.blockSize, p), done);
    }
    assert Solo(tokens)[..n] == r;
  }

  lemma BlockFrame(c: Config, kv: seq<KV>, w: nat, k: nat, x: KV, b: nat, tokens: seq<Token>, i: nat, n: nat)
    requires BlockHolds(c, kv, b, tokens, i, n) && b != w && k < c.blockSize && Span(c.blockSize, w) + k < |kv|
    ensures BlockHolds(c, kv[Span(c.blockSize, w) + k := x], b, tokens, i, n)
  {
    if b < w { SpanGrows(c.blockSize, b, w); } else { SpanGrows(c.blockSize, w, b); }
  }

  /** The block being filled gains the next position of its own token sequence. */
  lemma BlockExtend(c: Config, kv: seq<KV>, b: nat, tokens: seq<Token>, i: nat, p: nat)
    requires BlockHolds(c, kv, b, tokens, i, p) && p < |tokens|
             && Span(c.blockSize, i) <= p < Span(c.blockSize, i) + c.blockSize
    ensures var slot := Span(c.blockSize, b) + (p - Span(c.blockSize, i));
            slot < |kv| && BlockHolds(c, kv[slot := Solo(tokens)[p]], b, tokens, i, p + 1)
  {
    hide Solo, Span;
    var from, to, x := Span(c.blockSize, i), Span(c.blockSize, b), Solo(tokens)[p];
    var kv' := kv[to + (p - from) := x];
    forall q | from <= q < p + 1 && q < from + c.blockSize
      ensures kv'[to + (q - from)] == Solo(tokens)[q]
    {
      if q < p { assert kv[to + (q - from)] == Solo(tokens)[q]; }
    }
  }

  lemma EntryAddressable(c: Config, s: State, batch: seq<Scheduled>, kv: seq<KV>, i: nat)
    requires Inv(c, s, batch) && i < |batch| && |kv| == Span(c.blockSize, c.numBlocks)
    ensures Addressable(c, kv, batch[i])
  {
    hide PoolOk, NoDup, Order, Chain;
    var r, e := s.running[i], batch[i];
    assert RunningOk(c, s.pool, r, Dones(s, batch)[i]);
    assert EntryOk(s.pool, r, e);
    CeilDivBounds(r.numComputed, c.blockSize);
    forall j | 0 <= j < |e.blocks|
      ensures Span(c.blockSize, e.blocks[j]) + c.blockSize <= |kv|
    {
      SpanGrows(c.blockSize, e.blocks[j], c.numBlocks);
    }
  }

  lemma CacheFrame(c: Config, s: Store, kv: seq<KV>, U: iset<seq<Token>>, w: nat, k: nat, x: KV)
    requires CacheOk(c, s, kv, U) && w < |s.blocks| && !s.blocks[w].valid
    requires k < c.blockSize && Span(c.blockSize, w) + k < |kv|
    ensures CacheOk(c, s, kv[Span(c.blockSize, w) + k := x], U)
  {
    hide BlockHolds, Chain;
    var kv' := kv[Span(c.blockSize, w) + k := x];
    forall b: nat, P, n: nat | Stands(c, s, U, b, P, n)
      ensures BlockHolds(c, kv', b, P, n - 1, |P|)
    {
      BlockFrame(c, kv, w, k, x, b, P, n - 1, |P|);
    }
  }

  lemma TableFrame(c: Config, kv: seq<KV>, t: seq<nat>, tokens: seq<Token>, n: nat, w: nat, k: nat, x: KV)
    requires TableHolds(c, kv, t, tokens, n) && w !in t
    requires k < c.blockSize && Span(c.blockSize, w) + k < |kv|
    ensures TableHolds(c, kv[Span(c.blockSize, w) + k := x], t, tokens, n)
  {
    hide BlockHolds;
    forall i | 0 <= i < |t|
      ensures BlockHolds(c, kv[Span(c.blockSize, w) + k := x], t[i], tokens, i, n)
    {
      BlockFrame(c, kv, w, k, x, t[i], tokens, i, n);
    }
  }

  lemma OwnTableFrame(c: Config, kv: seq<KV>, t: seq<nat>, tokens: seq<Token>, p: nat, q: nat, k: nat)
    requires TableHolds(c, kv, t, tokens, p) && p < |tokens| && p < Span(c.blockSize, |t|)
    requires q < |t| && k < c.blockSize && p == Span(c.blockSize, q) + k
    requires forall j :: 0 <= j < |t| && j != q ==> t[j] != t[q]
    ensures var slot := Span(c.blockSize, t[q]) + k;
            slot < |kv| && TableHolds(c, kv[slot := Solo(tokens)[p]], t, tokens, p + 1)
  {
    hide BlockHolds, Solo, Span;
    BlockFits(c, kv, t[q], tokens, q, p);
    BlockExtend(c, kv, t[q], tokens, q, p);
    var kv' := kv[Span(c.blockSize, t[q]) + k := Solo(tokens)[p]];
    forall i | 0 <= i < |t|
      ensures BlockHolds(c, kv', t[i], tokens, i, p + 1)
    {
      if i != q {
        BlockFrame(c, kv, t[q], k, Solo(tokens)[p], t[i], tokens, i, p);
        BlockPast(c, kv', t[i], tokens, i, p, q, k);
      }
    }
  }

  lemma BlockFits(c: Config, kv: seq<KV>, b: nat, tokens: seq<Token>, i: nat, n: nat)
    requires BlockHolds(c, kv, b, tokens, i, n)
    ensures Span(c.blockSize, b) + c.blockSize <= |kv|
  {
  }

  lemma BlockPast(c: Config, kv: seq<KV>, b: nat, tokens: seq<Token>, i: nat, p: nat, q: nat, k: nat)
    requires BlockHolds(c, kv, b, tokens, i, p) && p < |tokens|
    requires i != q && k < c.blockSize && p == Span(c.blockSize, q) + k
    ensures BlockHolds(c, kv, b, tokens, i, p + 1)
  {
    if i < q { SpanGrows(c.blockSize, i, q); } else { SpanGrows(c.blockSize, q, i); }
  }

  lemma NotShared(tables: map<Id, seq<nat>>, id: Id, q: nat, id': Id)
    requires id in tables && id' in tables && q < |tables[id]| && Held(tables)[tables[id][q]] <= 1 && id != id'
    ensures tables[id][q] !in tables[id']
  {
    if tables[id][q] in tables[id'] {
      var j :| 0 <= j < |tables[id']| && tables[id'][j] == tables[id][q];
      SoleOwner(tables, id, q, id', j);
    }
  }

  lemma IdsDistinct(c: Config, s: State, batch: seq<Scheduled>, i: nat, k: nat)
    requires Inv(c, s, batch) && i < |s.running| && k < |s.running| && i != k
    ensures s.running[i].id != s.running[k].id
  {
    hide PoolOk, RunningOk, Order;
    RunningDistinct(s, i, k);
  }

  lemma SolePosition(tables: map<Id, seq<nat>>, id: Id, q: nat)
    requires id in tables && q < |tables[id]| && Held(tables)[tables[id][q]] <= 1
    ensures forall j :: 0 <= j < |tables[id]| && j != q ==> tables[id][j] != tables[id][q]
  {
    forall j | 0 <= j < |tables[id]| && j != q
      ensures tables[id][j] != tables[id][q]
    {
      if tables[id][j] == tables[id][q] { SoleOwner(tables, id, q, id, j); }
    }
  }

  /** One token's step: its entry is the lone decoder's, and nothing else that counts is touched. */
  lemma WriteKeepsContent(
    c: Config, s: State, kv: seq<KV>, U: iset<seq<Token>>, batch: seq<Scheduled>, d: seq<nat>, i: nat)
    requires Inv(c, s, batch) && Content(c, s, kv, U, d)
    requires i < |batch| && Writes(batch[i], d[i])
    ensures Addressable(c, kv, batch[i])
    ensures Content(c, s, WriteOne(c, kv, batch[i], d[i]), U, d[i := d[i] + 1])
  {
    hide Inv, CacheOk, TableHolds, Order, Addressable, TokensIn;
    InvBatch(c, s, batch);
    var r, e, p := s.running[i], batch[i], d[i];
    EntryAddressable(c, s, batch, kv, i);
    WrittenBlock(c, s, batch, i, p);
    SolePosition(s.pool.tables, e.id, UnitOf(c.blockSize, p));
    EntryIsRequests(c, s, batch, i, p);
    var q, t := UnitOf(c.blockSize, p), e.blocks;
    WriteIsSolo(c, kv, e, r.tokens, p);
    var x, k := Solo(r.tokens)[p], RestOf(c.blockSize, p);
    Position(c.blockSize, p);
    OwnTableFrame(c, kv, t, r.tokens, p, q, k);
    CacheFrame(c, s.pool.store, kv, U, t[q], k, x);
    var kv' := WriteOne(c, kv, e, p);
    forall j | 0 <= j < |s.running|
      ensures TableHolds(c, kv', Table(s.pool, s.running[j].id), s.running[j].tokens, d[i := p + 1][j])
    {
      if j != i {
        IdsDistinct(c, s, batch, i, j);
        if s.running[j].id in s.pool.tables { NotShared(s.pool.tables, e.id, q, s.running[j].id); }
        TableFrame(c, kv, Table(s.pool, s.running[j].id), s.running[j].tokens, d[j], t[q], k, x);
      }
    }
  }

  lemma EntryIsRequests(c: Config, s: State, batch: seq<Scheduled>, i: nat, p: nat)
    requires Inv(c, s, batch) && i < |batch| && Writes(batch[i], p)
    ensures var r, e := s.running[i], batch[i];
            && e.id == r.id && e.blocks == Table(s.pool, r.id)
            && p < |r.tokens| && p < Span(c.blockSize, |e.blocks|) && e.tokens[p - e.offset] == r.tokens[p]
            && e.offset + |e.tokens| == r.numComputed
  {
    hide PoolOk, TableOk, NoDup, Order;
    var r, e := s.running[i], batch[i];
    assert RunningOk(c, s.pool, r, Dones(s, batch)[i]);
    assert EntryOk(s.pool, r, e);
    CeilDivBounds(r.numComputed, c.blockSize);
  }

  lemma WriteIsSolo(c: Config, kv: seq<KV>, e: Scheduled, tokens: seq<Token>, p: nat)
    requires Addressable(c, kv, e) && Writes(e, p) && p < |tokens| && e.tokens[p - e.offset] == tokens[p]
    requires TableHolds(c, kv, e.blocks, tokens, p)
    ensures UnitOf(c.blockSize, p) < |e.blocks|
    ensures var slot := Span(c.blockSize, e.blocks[UnitOf(c.blockSize, p)]) + RestOf(c.blockSize, p);
            slot < |kv| && WriteOne(c, kv, e, p) == kv[slot := Solo(tokens)[p]]
  {
    hide TableHolds, Slot, Read;
    SlotInPool(c, kv, e.blocks, p);
    ReadsSolo(c, kv, e.blocks, tokens, p, p);
    SoloAt(tokens, p);
  }

  // ---------------------------------------------------------------- whole batch

  lemma {:induction false} ForwardKeepsContent(
    c: Config, s: State, kv: seq<KV>, U: iset<seq<Token>>, batch: seq<Scheduled>, d: seq<nat>, i: nat)
    requires Inv(c, s, batch) && Content(c, s, kv, U, d) && i < |batch| && i < |d|
    requires Addressable(c, kv, batch[i]) && batch[i].offset <= d[i] <= batch[i].offset + |batch[i].tokens|
    ensures var end := batch[i].offset + |batch[i].tokens|;
            Content(c, s, Forward(c, kv, batch[i], d[i]), U, d[i := end])
    decreases batch[i].offset + |batch[i].tokens| - d[i]
  {
    hide Inv, Content, Addressable, WriteOne;
    var e := batch[i];
    if d[i] < e.offset + |e.tokens| {
      ContentSize(c, s, kv, U, d);
      WriteKeepsContent(c, s, kv, U, batch, d, i);
      var kv', d' := WriteOne(c, kv, e, d[i]), d[i := d[i] + 1];
      SameAddressable(c, kv, kv', e);
      ForwardKeepsContent(c, s, kv', U, batch, d', i);
      assert d'[i := e.offset + |e.tokens|] == d[i := e.offset + |e.tokens|];
    } else {
      assert d[i := e.offset + |e.tokens|] == d;
    }
  }

  lemma ContentSize(c: Config, s: State, kv: seq<KV>, U: iset<seq<Token>>, d: seq<nat>)
    requires Content(c, s, kv, U, d)
    ensures |d| == |s.running| && |kv| == Span(c.blockSize, c.numBlocks)
  {
  }

  lemma SameAddressable(c: Config, kv: seq<KV>, kv': seq<KV>, e: Scheduled)
    requires Addressable(c, kv, e) && |kv| == |kv'|
    ensures Addressable(c, kv', e)
  {
  }

  /** The number of entries each running request has in the cache once the first i batch
      entries have been computed. */
  ghost function Written(s: State, batch: seq<Scheduled>, i: nat): (d: seq<nat>)
    requires |batch| <= |s.running|
    ensures |d| == |s.running|
    ensures forall k :: 0 <= k < |d| ==>
              d[k] == if k < |batch| then batch[k].offset + (if k < i then |batch[k].tokens| else 0)
                  else s.running[k].numComputed
  {
    seq(|s.running|, k requires 0 <= k < |s.running| =>
      if k < |batch| then batch[k].offset + (if k < i then |batch[k].tokens| else 0) else s.running[k].numComputed)
  }

  lemma {:induction false} ForwardAllKeepsContent(
    c: Config, s: State, kv: seq<KV>, U: iset<seq<Token>>, batch: seq<Scheduled>, i: nat)
    requires |batch| <= |s.running| && Inv(c, s, batch) && i <= |batch|
    requires Content(c, s, kv, U, Written(s, batch, i)) && AllAddressable(c, kv, batch)
    ensures Content(c, s, ForwardAll(c, kv, batch, i), U, Written(s, batch, |batch|))
    decreases |batch| - i
  {
    hide Inv, Content, Addressable, Forward;
    if i < |batch| {
      var d := Written(s, batch, i);
      ForwardKeepsContent(c, s, kv, U, batch, d, i);
      assert d[i := batch[i].offset + |batch[i].tokens|] == Written(s, batch, i + 1);
      var kv' := Forward(c, kv, batch[i], batch[i].offset);
      forall k | 0 <= k < |batch|
        ensures Addressable(c, kv', batch[k])
      {
        SameAddressable(c, kv, kv', batch[k]);
      }
      ForwardAllKeepsContent(c, s, kv', U, batch, i + 1);
    }
  }

  lemma BatchAddressable(c: Config, s: State, kv: seq<KV>, batch: seq<Scheduled>)
    requires Inv(c, s, batch) && |kv| == Span(c.blockSize, c.numBlocks)
    ensures AllAddressable(c, kv, batch)
  {
    hide Inv, Addressable;
    forall i | 0 <= i < |batch|
      ensures Addressable(c, kv, batch[i])
    {
      EntryAddressable(c, s, batch, kv, i);
    }
  }

  /** After the batch has run, everything counted as computed is in the cache. */
  lemma RunKeepsContent(c: Config, s: State, kv: seq<KV>, U: iset<seq<Token>>, batch: seq<Scheduled>)
    requires Inv(c, s, batch) && Content(c, s, kv, U, Dones(s, batch))
    ensures AllAddressable(c, kv, batch)
    ensures Content(c, s, ForwardAll(c, kv, batch, 0), U, Computed(s))
  {
    hide Content, Base, AllAddressable;
    ContentSize(c, s, kv, U, Dones(s, batch));
    BatchAddressable(c, s, kv, batch);
    assert Dones(s, batch) == Written(s, batch, 0);
    ForwardAllKeepsContent(c, s, kv, U, batch, 0);
    assert forall i :: 0 <= i < |batch| ==> EntryOk(s.pool, s.running[i], batch[i]);
    assert Written(s, batch, |batch|) == Computed(s);
  }

  /** A request that needs a token gets the lone decoder's next token. */
  lemma SampledIsSolo(c: Config, w: World, s: State, kv: seq<KV>, U: iset<seq<Token>>, batch: seq<Scheduled>, i: nat)
    requires Inv(c, s, batch) && Content(c, s, kv, U, Computed(s)) && i < |batch| && batch[i].needsSampling
    ensures Addressable(c, kv, batch[i])
    ensures i < |s.running| && s.running[i].id == batch[i].id && s.running[i].numComputed == |s.running[i].tokens|
    ensures var t := NextToken(w, s.running[i]);
            SampleOne(c, w, kv, batch[i]) == Sampled(s.running[i].id, t, w.isEos(t))
  {
    hide Base, CacheOk, TableHolds, Order, Addressable, TokensIn;
    EntryAddressable(c, s, batch, kv, i);
    var r, e := s.running[i], batch[i];
    assert EntryOk(s.pool, r, e);
    assert TableHolds(c, kv, Table(s.pool, r.id), r.tokens, Computed(s)[i]);
    ReadsSolo(c, kv, e.blocks, r.tokens, |r.tokens|, |r.tokens|);
    assert r.tokens[..|r.tokens|] == r.tokens;
  }
}
