/** What every reachable state between two rounds looks like, spelt out. */
module ReachableState {
  import opened Types
  import opened Arith
  import opened BlockStore
  import opened CachePool
  import opened PoolInvariant
  import opened PoolContent
  import opened Decoder
  import opened SchedulerModel
  import opened ScheduleStep
  import opened SchedulerRounds
  import opened StepTheorems
  import opened EngineModel
  import opened EngineRuns

  /** A block counts its occurrences in all tables; the free list holds exactly the blocks
      that have none, each once. */
  ghost predicate BlocksConserved(c: Config, p: Pool) {
    && |p.store.blocks| == c.numBlocks
    && (forall b: nat :: b < c.numBlocks ==>
          && p.store.blocks[b].refs == Held(p.tables)[b]
          && (b in p.store.free <==> p.store.blocks[b].refs == 0))
    && (forall i, j :: 0 <= i < j < |p.store.free| ==> p.store.free[i] != p.store.free[j])
  }

  /** The published blocks of a table are its first ones, they are full and computed, and
      each carries the hash that a lookup from the seed would compute. */
  ghost predicate PublishedPrefix(c: Config, p: Pool, r: Request) {
    var t := Table(p, r.id);
    && Inside(p.store, t)
    && (forall i, j :: 0 <= i < j < |t| && p.store.blocks[t[j]].valid ==> p.store.blocks[t[i]].valid)
    && (forall i :: 0 <= i < |t| && p.store.blocks[t[i]].valid ==>
          Span(c.blockSize, i + 1) <= r.numComputed <= |r.tokens|
          && p.store.blocks[t[i]].hash == Chain(c, r.tokens, i + 1))
  }

  /** A running request has something left to compute and holds just the blocks it needs. */
  ghost predicate RunningInShape(c: Config, p: Pool, r: Request) {
    && r.status == Running && r.numPrompt <= |r.tokens| < c.maxModelLen
    && r.numComputed < |r.tokens| && |Table(p, r.id)| == CeilDiv(r.numComputed, c.blockSize)
  }

  ghost predicate QueuedInShape(c: Config, p: Pool, r: Request) {
    r.numComputed == 0 < |r.tokens| < c.maxModelLen && r.id !in p.tables
  }

  lemma ConservedFrom(c: Config, p: Pool)
    requires PoolOk(p) && |p.store.blocks| == c.numBlocks
    ensures BlocksConserved(c, p)
  {
    hide IndexOk;
    forall i, j | 0 <= i < j < |p.store.free|
      ensures p.store.free[i] != p.store.free[j]
    {
      if p.store.free[i] == p.store.free[j] { CountTwice(p.store.free, i, j); }
    }
    forall b: nat | b < c.numBlocks
      ensures b in p.store.free <==> multiset(p.store.free)[b] == 1
    {
    }
  }

  /** Every state between rounds of every run from start-up. */
  lemma EveryReachableState(c: Config, w: World, events: seq<Event>)
    requires ArrivalsOk(c, events)
    ensures RunOk(c, Start(c), events)
    ensures var s := Run(c, w, Start(c), events).s;
            && BlocksConserved(c, s.pool) && IndexOk(s.pool.store) && |s.running| <= c.maxSeqs
            && (forall i :: 0 <= i < |s.running| ==>
                  RunningInShape(c, s.pool, s.running[i]) && PublishedPrefix(c, s.pool, s.running[i]))
            && (forall i :: 0 <= i < |s.preempted| ==> QueuedInShape(c, s.pool, s.preempted[i]))
            && (forall i :: 0 <= i < |s.waiting| ==> QueuedInShape(c, s.pool, s.waiting[i]))
            && (forall id :: id in s.pool.tables ==> HasId(s.running, id))
  {
    hide Run, BlocksConserved, IndexOk, RunningInShape, PublishedPrefix, QueuedInShape, Inv;
    StartRunOk(c, events);
    var g := Run(c, w, Start(c), events);
    GoodInv(c, g);
    InvShape(c, g.s);
  }

  lemma IndexFrom(s: Store, held: multiset<nat>)
    requires StoreOk(s, held)
    ensures IndexOk(s)
  {
  }

  lemma InvShape(c: Config, s: State)
    requires Inv(c, s, [])
    ensures BlocksConserved(c, s.pool) && IndexOk(s.pool.store) && |s.running| <= c.maxSeqs
    ensures forall i :: 0 <= i < |s.running| ==>
              RunningInShape(c, s.pool, s.running[i]) && PublishedPrefix(c, s.pool, s.running[i])
    ensures forall i :: 0 <= i < |s.preempted| ==> QueuedInShape(c, s.pool, s.preempted[i])
    ensures forall i :: 0 <= i < |s.waiting| ==> QueuedInShape(c, s.pool, s.waiting[i])
    ensures forall id :: id in s.pool.tables ==> HasId(s.running, id)
  {
    hide Order, NoDup, BlocksConserved, IndexOk, StoreOk, Chain;
    ConservedFrom(c, s.pool);
    IndexFrom(s.pool.store, Held(s.pool.tables));
    BasePlaced(c, s, Dones(s, []));
    forall i | 0 <= i < |s.running|
      ensures RunningInShape(c, s.pool, s.running[i]) && PublishedPrefix(c, s.pool, s.running[i])
    {
      assert RunningOk(c, s.pool, s.running[i], Dones(s, [])[i]);
    }
  }

  /** The entries of a step: each continues its request where it stood, with its own table,
      and samples exactly if it computes the last token. */
  lemma EveryBatchEntry(c: Config, s: State, i: nat)
    requires Inv(c, s, []) && i < |Schedule(c, s).1|
    ensures var (s', batch) := Schedule(c, s);
            var e := batch[i];
            && i < |s'.running| && e.id == s'.running[i].id && e.tokens != []
            && e.offset + |e.tokens| == s'.running[i].numComputed <= |s'.running[i].tokens|
            && e.tokens == s'.running[i].tokens[e.offset..s'.running[i].numComputed]
            && e.params == s'.running[i].params && (e.isPrefill <==> e.offset < s'.running[i].numPrefill)
            && e.blocks == Table(s'.pool, e.id) && |e.blocks| == CeilDiv(e.offset + |e.tokens|, c.blockSize)
            && (e.needsSampling <==> e.offset + |e.tokens| == |s'.running[i].tokens|)
  {
    hide PoolOk, Order, TableOk, Schedule;
    var (s', batch) := Schedule(c, s);
    assert EntryOk(s'.pool, s'.running[i], batch[i]);
    assert RunningOk(c, s'.pool, s'.running[i], Dones(s', batch)[i]);
  }

  /** The slot that a request's table gives for position p holds the entry that the lone
      decoder computes for it: that of exactly the first p + 1 tokens. */
  ghost predicate SlotHolds(c: Config, g: Engine, r: Request, p: nat)
    requires p < |r.tokens|
  {
    var t := Table(g.s.pool, r.id);
    && p < Span(c.blockSize, |t|)
    && Slot(c, t, p) < |g.kv| && g.kv[Slot(c, t, p)] == Entry(Solo(r.tokens[..p]), r.tokens[p])
  }

  ghost predicate AllHeld(c: Config, g: Engine, r: Request) {
    forall p: nat :: p < r.numComputed ==> p < |r.tokens| && SlotHolds(c, g, r, p)
  }

  lemma HeldSlot(c: Config, g: Engine, r: Request, p: nat)
    requires TableHolds(c, g.kv, Table(g.s.pool, r.id), r.tokens, r.numComputed) && p < r.numComputed
    ensures p < |r.tokens| && SlotHolds(c, g, r, p)
  {
    hide Slot, Solo;
    var t := Table(g.s.pool, r.id);
    SlotIs(c, t, p);
    Position(c.blockSize, p);
    SoloAt(r.tokens, p);
    assert BlockHolds(c, g.kv, t[UnitOf(c.blockSize, p)], r.tokens, UnitOf(c.blockSize, p), r.numComputed);
  }

  lemma HeldRequest(c: Config, g: Engine, r: Request)
    requires TableHolds(c, g.kv, Table(g.s.pool, r.id), r.tokens, r.numComputed)
    ensures AllHeld(c, g, r)
  {
    hide TableHolds, SlotHolds;
    HeldSize(c, g, r);
    forall p: nat | p < r.numComputed
      ensures SlotHolds(c, g, r, p)
    {
      HeldSlot(c, g, r, p);
    }
  }

  lemma HeldSize(c: Config, g: Engine, r: Request)
    requires TableHolds(c, g.kv, Table(g.s.pool, r.id), r.tokens, r.numComputed)
    ensures r.numComputed <= |r.tokens|
  {
  }

  /** Slot k of block b holds the k-th entry of block i of P, computed after all the tokens
      before it. */
  ghost predicate HoldsEntry(c: Config, kv: seq<KV>, b: nat, P: seq<Token>, i: nat, k: nat) {
    var p := Span(c.blockSize, i) + k;
    && p < |P| && Span(c.blockSize, b) + k < |kv|
    && kv[Span(c.blockSize, b) + k] == Entry(Solo(P[..p]), P[p])
  }

  /** Block b is full of the entries of block i of P. */
  ghost predicate FullOf(c: Config, kv: seq<KV>, b: nat, P: seq<Token>, i: nat) {
    forall k: nat :: k < c.blockSize ==> HoldsEntry(c, kv, b, P, i, k)
  }

  lemma StandsHolds(c: Config, s: Store, kv: seq<KV>, U: iset<seq<Token>>, b: nat, P: seq<Token>, n: nat)
    requires CacheOk(c, s, kv, U) && Stands(c, s, U, b, P, n)
    ensures FullOf(c, kv, b, P, n - 1)
  {
    hide Solo, Chain;
    assert BlockHolds(c, kv, b, P, n - 1, |P|);
    var i := n - 1;
    forall k: nat | k < c.blockSize
      ensures HoldsEntry(c, kv, b, P, i, k)
    {
      SoloAt(P, Span(c.blockSize, i) + k);
    }
  }

  /** Block b is published under the hash of a prefix that occurs in the run, and full of it. */
  ghost predicate PublishedFull(c: Config, g: Engine, U: iset<seq<Token>>, b: nat) {
    exists P, n: nat :: Stands(c, g.s.pool.store, U, b, P, n) && FullOf(c, g.kv, b, P, n - 1)
  }

  lemma PublishedIsFull(c: Config, g: Engine, U: iset<seq<Token>>, b: nat)
    requires CacheOk(c, g.s.pool.store, g.kv, U) && b < |g.s.pool.store.blocks| && g.s.pool.store.blocks[b].valid
    ensures PublishedFull(c, g, U, b)
  {
    hide BlockHolds, FullOf;
    var P, n: nat :| Stands(c, g.s.pool.store, U, b, P, n);
    StandsHolds(c, g.s.pool.store, g.kv, U, b, P, n);
  }

  /** In every reachable state the cache is truthful: each computed position of each running
      request is where its table says, and every published block, idle ones included, is
      full of a prefix that occurs in the run and that its hash stands for. */
  lemma EveryReachableCache(c: Config, w: World, events: seq<Event>)
    requires ArrivalsOk(c, events) && HashTrusted(c, Occurring(c, w, events))
    ensures RunOk(c, Start(c), events)
    ensures var g := Run(c, w, Start(c), events);
            && (forall b: nat :: b < |g.s.pool.store.blocks| && g.s.pool.store.blocks[b].valid ==>
                  PublishedFull(c, g, Prefixes(g), b))
            && CacheOk(c, g.s.pool.store, g.kv, Prefixes(g))
            && forall i :: 0 <= i < |g.s.running| ==> AllHeld(c, g, g.s.running[i])
  {
    hide Good, Run, HashTrusted, Order, CacheOk, TableHolds, AllHeld, Prefixes, RunOk,
         PublishedFull;
    StartRunOk(c, events);
    EveryRunFaithful(c, w, events);
    var g := Run(c, w, Start(c), events);
    var U := Prefixes(g);
    forall b: nat | b < |g.s.pool.store.blocks| && g.s.pool.store.blocks[b].valid
      ensures PublishedFull(c, g, U, b)
    {
      PublishedIsFull(c, g, U, b);
    }
    forall i | 0 <= i < |g.s.running|
      ensures AllHeld(c, g, g.s.running[i])
    {
      assert TableHolds(c, g.kv, Table(g.s.pool, g.s.running[i].id), g.s.running[i].tokens, g.s.running[i].numComputed);
      HeldRequest(c, g, g.s.running[i]);
    }
  }
}
