/** What one scheduler step guarantees. */
module StepTheorems {
  import opened Types
  import opened Arith
  import opened BlockStore
  import opened CachePool
  import opened PoolInvariant
  import opened SchedulerModel
  import opened ScheduleStep

  // ---------------------------------------------------------------- exclusive writes

  /** The cache slot of position p of a request whose table is t. */
  function Slot(c: Config, t: seq<nat>, p: nat): nat
    requires p < Span(c.blockSize, |t|)
  {
    DivBelow(p, c.blockSize, |t|);
    t[p / c.blockSize] * c.blockSize + p % c.blockSize
  }

  lemma SlotIs(c: Config, t: seq<nat>, p: nat)
    requires p < Span(c.blockSize, |t|)
    ensures UnitOf(c.blockSize, p) < |t|
    ensures Slot(c, t, p) == Span(c.blockSize, t[UnitOf(c.blockSize, p)]) + RestOf(c.blockSize, p)
    ensures RestOf(c.blockSize, p) < c.blockSize
  {
    UnitBelow(c.blockSize, p, |t|);
    UnitIsDiv(c.blockSize, p);
    SpanIsProduct(c.blockSize, t[UnitOf(c.blockSize, p)]);
  }

  lemma SpanRest(d: pos, q: nat, r: nat, q': nat, r': nat)
    requires r < d && r' < d && Span(d, q) + r == Span(d, q') + r'
    ensures q == q' && r == r'
  {
    if q < q' { SpanGrows(d, q, q'); }
    if q' < q { SpanGrows(d, q', q); }
  }

  ghost predicate Writes(e: Scheduled, p: nat) {
    e.offset <= p < e.offset + |e.tokens|
  }

  lemma UnfilledBlock(c: Config, s: Store, t: seq<nat>, tokens: seq<Token>, done: nat, computed: nat, p: nat)
    requires TableOk(c, s, t, tokens, done) && |t| == CeilDiv(computed, c.blockSize) && done <= p < computed
    ensures p < Span(c.blockSize, |t|) && UnitOf(c.blockSize, p) < |t|
    ensures var b := t[UnitOf(c.blockSize, p)]; b < |s.blocks| && !s.blocks[b].valid
  {
    hide Chain;
    CeilDivBounds(computed, c.blockSize);
    UnitBelow(c.blockSize, p, |t|);
    UnitBelow(c.blockSize, p, UnitOf(c.blockSize, p) + 1);
  }

  /** A written block is unpublished, hence private to one position of one table. */
  lemma WrittenBlock(c: Config, s: State, batch: seq<Scheduled>, i: nat, p: nat)
    requires Inv(c, s, batch) && i < |batch| && Writes(batch[i], p)
    ensures batch[i].id in s.pool.tables && batch[i].blocks == s.pool.tables[batch[i].id]
    ensures p < Span(c.blockSize, |batch[i].blocks|) && UnitOf(c.blockSize, p) < |batch[i].blocks|
    ensures var b := batch[i].blocks[UnitOf(c.blockSize, p)];
            && b < |s.pool.store.blocks| && !s.pool.store.blocks[b].valid && s.pool.store.blocks[b].refs == 1
            && Held(s.pool.tables)[b] == 1
  {
    hide StoreOk, NoDup, Order, TableOk;
    var r, e := s.running[i], batch[i];
    assert RunningOk(c, s.pool, r, Dones(s, batch)[i]);
    assert EntryOk(s.pool, r, e);
    UnfilledBlock(c, s.pool.store, e.blocks, r.tokens, e.offset, r.numComputed, p);
    HeldContains(s.pool.tables, r.id);
    var b := e.blocks[UnitOf(c.blockSize, p)];
    assert b in s.pool.tables[r.id];
    UnpublishedHeldOnce(s.pool.store, Held(s.pool.tables), b);
  }

  lemma UnpublishedHeldOnce(s: Store, held: multiset<nat>, b: nat)
    requires StoreOk(s, held) && b in held && b < |s.blocks| && !s.blocks[b].valid
    ensures held[b] == 1 == s.blocks[b].refs
  {
  }

  /** No two tokens of a batch are written to the same slot, and no published or shared
      block is written, whatever the hash function does. */
  lemma ExclusiveWrites(c: Config, s: State, batch: seq<Scheduled>, i: nat, p: nat, i': nat, p': nat)
    requires Inv(c, s, batch) && i < |batch| && i' < |batch| && Writes(batch[i], p) && Writes(batch[i'], p')
    ensures p < Span(c.blockSize, |batch[i].blocks|) && p' < Span(c.blockSize, |batch[i'].blocks|)
    ensures Slot(c, batch[i].blocks, p) == Slot(c, batch[i'].blocks, p') ==> i == i' && p == p'
  {
    hide Inv, Slot;
    WrittenBlock(c, s, batch, i, p);
    WrittenBlock(c, s, batch, i', p');
    if Slot(c, batch[i].blocks, p) == Slot(c, batch[i'].blocks, p') {
      SlotIs(c, batch[i].blocks, p);
      SlotIs(c, batch[i'].blocks, p');
      var q, q' := UnitOf(c.blockSize, p), UnitOf(c.blockSize, p');
      SpanRest(c.blockSize, batch[i].blocks[q], RestOf(c.blockSize, p), batch[i'].blocks[q'], RestOf(c.blockSize, p'));
      SoleOwner(s.pool.tables, batch[i].id, q, batch[i'].id, q');
      BatchDistinct(c, s, batch, i, i');
      Position(c.blockSize, p);
      Position(c.blockSize, p');
    }
  }

  lemma BatchDistinct(c: Config, s: State, batch: seq<Scheduled>, i: nat, i': nat)
    requires Inv(c, s, batch) && i < |batch| && i' < |batch| && batch[i].id == batch[i'].id
    ensures i == i'
  {
    hide PoolOk, RunningOk, Order;
    if i != i' { RunningDistinct(s, i, i'); }
  }

  // ---------------------------------------------------------------- budget

  lemma TotalSnoc(batch: seq<Scheduled>, e: Scheduled)
    ensures Total(batch + [e]) == Total(batch) + |e.tokens|
  {
    assert (batch + [e])[..|batch|] == batch;
  }

  lemma {:induction false} ServeRunningBudget(c: Config, s: State, budget: nat, batch: seq<Scheduled>)
    requires Inv(c, s, batch) && |batch| <= c.maxSeqs
    ensures var (s', budget', batch') := ServeRunning(c, s, budget, batch);
            Total(batch') + budget' == Total(batch) + budget && |batch'| <= c.maxSeqs
    decreases |s.running| - |batch|
  {
    hide Inv, Feed, Feedable, Order, Askable, Fits, Secure, Total;
    InvBatch(c, s, batch);
    var i := |batch|;
    if i < |s.running| && budget > 0 && i < c.maxSeqs {
      var n := ShareOf(s.running[i], budget);
      NextShare(c, s, batch, budget);
      SecureMoves(c, s, batch, i, n);
      var (s1, ok) := Secure(c, s, batch, i, n);
      if ok {
        FeedKeepsInv(c, s1, batch, n);
        var (s2, e) := Feed(c, s1, i, n);
        FedSizes(c, s1, i, n);
        TotalSnoc(batch, e);
        ServeRunningBudget(c, s2, budget - n, batch + [e]);
      }
    }
  }

  lemma {:induction false} AdmitQueuedBudget(c: Config, s: State, budget: nat, batch: seq<Scheduled>)
    requires Inv(c, s, batch) && |batch| <= c.maxSeqs
    requires |batch| == |s.running| || budget == 0 || |batch| >= c.maxSeqs
    ensures var (s', budget', batch') := AdmitQueued(c, s, budget, batch);
            Total(batch') + budget' == Total(batch) + budget && |batch'| <= c.maxSeqs
    decreases |s.preempted| + |s.waiting|
  {
    hide Inv, Feed, Enter, Abandon, Askable, Fits, Release, Total;
    if HasHead(s) && budget > 0 && |batch| < c.maxSeqs {
      var i := |batch|;
      EnterKeepsInv(c, s, batch);
      EnteredSize(c, s);
      var s1 := Enter(c, s);
      NextShare(c, s1, batch, budget);
      var n := ShareOf(s1.running[i], budget);
      NextAskable(c, s1, batch, n);
      if Fits(c, s1.pool, s1.running[i], n) {
        FeedKeepsInv(c, s1, batch, n);
        var (s2, e) := Feed(c, s1, i, n);
        FedSizes(c, s1, i, n);
        TotalSnoc(batch, e);
        AdmitQueuedBudget(c, s2, budget - n, batch + [e]);
      }
    }
  }

  /** A batch respects the token budget and the sequence limit. */
  lemma ScheduleWithinLimits(c: Config, s: State)
    requires Inv(c, s, [])
    ensures var (s', batch) := Schedule(c, s);
            Total(batch) <= c.maxScheduledTokens && |batch| <= |s'.running| <= c.maxSeqs
  {
    hide PoolOk, EntryOk, RunningOk, Order, ServeRunning, AdmitQueued;
    var (s1, budget, batch) := ServeRunning(c, s, c.maxScheduledTokens, []);
    ServeRunningBudget(c, s, c.maxScheduledTokens, []);
    if |s1.preempted| == |s.preempted| { AdmitQueuedBudget(c, s1, budget, batch); }
  }

  // ---------------------------------------------------------------- progress

  /** The start-up check: the pool holds one request of maximal length. */
  ghost predicate CapacityOk(c: Config) {
    c.numBlocks * c.blockSize >= c.maxModelLen
  }

  /** When no other request holds blocks, any request fits. */
  lemma AloneFits(c: Config, p: Pool, r: Request, n: nat)
    requires CapacityOk(c) && PoolOk(p) && |p.store.blocks| == c.numBlocks
    requires Askable(c, p, r, n) && |r.tokens| <= c.maxModelLen
    requires forall id :: id in p.tables ==> id == r.id
    ensures Fits(c, p, r, n)
  {
    hide StoreOk, CacheFullBlocks, TakeBlocks;
    SpanIsProduct(c.blockSize, c.numBlocks);
    CeilDivLeast(r.numComputed + n, c.blockSize, c.numBlocks);
    OkCounts(p.store, Held(p.tables));
    FreeAtLeast(p.store, Held(p.tables));
    if r.id in p.tables { HeldSplit(p.tables, r.id); }
    assert p.tables - {r.id} == map[];
    assert Held(map[]) == multiset{};
  }

  lemma OkCounts(s: Store, held: multiset<nat>)
    requires StoreOk(s, held)
    ensures CountsOk(s, held)
  {
  }

  /** The oldest running request always gets its share; it is never preempted. */
  lemma {:induction false} SecureOldest(c: Config, s: State, n: nat)
    requires CapacityOk(c) && Inv(c, s, []) && s.running != []
    requires n > 0 && s.running[0].numComputed + n <= |s.running[0].tokens|
    ensures Secure(c, s, [], 0, n).1
    decreases |s.running|
  {
    hide Release, Releasable, PoolOk, RunningOk, Askable, Fits, Order;
    NextAskable(c, s, [], n);
    if !Fits(c, s.pool, s.running[0], n) {
      PreemptKeepsInv(c, s, []);
      if |s.running| == 1 {
        AloneFits(c, s.pool, s.running[0], n);
      } else {
        SecureOldest(c, PreemptLast(c, s), n);
      }
    }
  }

  lemma ServeOldest(c: Config, s: State)
    requires CapacityOk(c) && Inv(c, s, []) && s.running != []
    ensures var batch := ServeRunning(c, s, c.maxScheduledTokens, []).2;
            batch != [] && batch[0].id == s.running[0].id && batch[0].offset == s.running[0].numComputed
  {
    hide Base, EntryOk, Askable, Fits, Secure, CapacityOk, AllocateSlots;
    var n := ShareOf(s.running[0], c.maxScheduledTokens);
    assert Ready(s.running[0]);
    SecureOldest(c, s, n);
    SecureMoves(c, s, [], 0, n);
    var (s1, ok) := Secure(c, s, [], 0, n);
    FeedKeepsInv(c, s1, [], n);
    var (s2, e) := Feed(c, s1, 0, n);
    assert [] + [e] <= ServeRunning(c, s2, c.maxScheduledTokens - n, [] + [e]).2;
  }

  lemma AdmitOldest(c: Config, s: State)
    requires CapacityOk(c) && Inv(c, s, []) && s.running == [] && HasHead(s)
    ensures var batch := AdmitQueued(c, s, c.maxScheduledTokens, []).2;
            batch != [] && batch[0].id == Head(s).id
  {
    hide PoolOk, RunningOk, EntryOk, Askable, Fits, CapacityOk, AllocateSlots, ReusePrefix, Releasable;
    EnterKeepsInv(c, s, []);
    var s1 := Enter(c, s);
    assert Ready(s1.running[0]);
    var n := ShareOf(s1.running[0], c.maxScheduledTokens);
    NextAskable(c, s1, [], n);
    AloneFits(c, s1.pool, s1.running[0], n);
    FeedKeepsInv(c, s1, [], n);
    var (s2, e) := Feed(c, s1, 0, n);
    assert [] + [e] <= AdmitQueued(c, s2, c.maxScheduledTokens - n, [] + [e]).2;
  }

  lemma NothingToServe(c: Config, s: State)
    requires Inv(c, s, []) && s.running == []
    ensures ServeRunning(c, s, c.maxScheduledTokens, []) == (s, c.maxScheduledTokens, [])
  {
  }

  lemma OldestIs(s: State)
    requires Order(s) != []
    ensures s.running == [] ==> HasHead(s)
    ensures Order(s)[0].id == if s.running != [] then s.running[0].id else Head(s).id
  {
  }

  /** A step with live requests computes something, and the oldest request is part of it:
      a running one continues where it was, any other starts. */
  lemma ScheduleServesOldest(c: Config, s: State)
    requires CapacityOk(c) && Inv(c, s, []) && Order(s) != []
    ensures var (s', batch) := Schedule(c, s);
            && batch != [] && batch[0].id == Order(s)[0].id && batch[0].tokens != []
            && batch[0].offset >= if s.running != [] then s.running[0].numComputed else 0
  {
    hide Base, ServeRunning, AdmitQueued, Order, CapacityOk;
    OldestIs(s);
    if s.running != [] { ServeOldest(c, s); } else { NothingToServe(c, s); AdmitOldest(c, s); }
    var (s', batch) := Schedule(c, s);
    assert EntryOk(s'.pool, s'.running[0], batch[0]);
  }
}
