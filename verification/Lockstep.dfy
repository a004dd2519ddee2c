/** The device computes all tokens of a batch together, layer by layer, while the executor
    model computes them one after the other.  Because writes are exclusive, both have the
    same outcome: the equations that hold after a parallel step have just one solution. */
module Lockstep {
  import opened Types
  import opened Arith
  import opened PoolInvariant
  import opened Decoder
  import opened SchedulerModel
  import opened ScheduleStep
  import opened StepTheorems
  import opened Executor

  /** Entry k's token at position q belongs to the first i entries and p positions of entry i. */
  ghost predicate Before(k: nat, q: nat, i: nat, p: nat) {
    k < i || (k == i && q < p)
  }

  /** A token of the batch that is computed among the first. */
  ghost predicate Reached(batch: seq<Scheduled>, i: nat, p: nat, k: nat, q: nat) {
    k < |batch| && Writes(batch[k], q) && Before(k, q, i, p)
  }

  /** The entry of token q of entry k is what its context in the same pool makes of it. */
  ghost predicate Solved(c: Config, kv: seq<KV>, e: Scheduled, q: nat)
    requires Addressable(c, kv, e) && Writes(e, q)
  {
    SlotInPool(c, kv, e.blocks, q);
    kv[Slot(c, e.blocks, q)] == Entry(Read(c, kv, e.blocks, q), e.tokens[q - e.offset])
  }

  /** kv' is the pool kv after the first i entries and p positions of entry i: their slots
      hold what their contexts in kv' itself make of them, the others are as before. */
  ghost predicate SolvedTo(c: Config, kv: seq<KV>, kv': seq<KV>, batch: seq<Scheduled>, i: nat, p: nat)
    requires AllAddressable(c, kv, batch)
  {
    && |kv'| == |kv|
    && (forall k: nat, q: nat :: Reached(batch, i, p, k, q) ==>
          Addressable(c, kv', batch[k]) && Solved(c, kv', batch[k], q))
    && (forall x: nat ::
          x < |kv| && (forall k: nat, q: nat :: Reached(batch, i, p, k, q) ==> SlotOf(c, batch[k], q) != x) ==>
            kv'[x] == kv[x])
  }

  ghost function SlotOf(c: Config, e: Scheduled, q: nat): int {
    if q < Span(c.blockSize, |e.blocks|) then Slot(c, e.blocks, q) else -1
  }

  /** The equations of a whole parallel step. */
  ghost predicate Lockstep(c: Config, kv: seq<KV>, kv': seq<KV>, batch: seq<Scheduled>)
    requires AllAddressable(c, kv, batch)
  {
    SolvedTo(c, kv, kv', batch, |batch|, 0)
  }

  /** A slot that is written is the slot of no other position of any request of the batch. */
  lemma WrittenOnce(c: Config, s: State, batch: seq<Scheduled>, i: nat, p: nat, k: nat, q: nat)
    requires Inv(c, s, batch) && i < |batch| && k < |batch| && Writes(batch[i], p)
    requires q < Span(c.blockSize, |batch[k].blocks|)
    ensures SlotOf(c, batch[i], p) == SlotOf(c, batch[k], q) ==> i == k && p == q
  {
    hide Inv, Slot;
    WrittenBlock(c, s, batch, i, p);
    BatchTable(c, s, batch, k);
    if SlotOf(c, batch[i], p) == SlotOf(c, batch[k], q) {
      SlotIs(c, batch[i].blocks, p);
      SlotIs(c, batch[k].blocks, q);
      var u, v := UnitOf(c.blockSize, p), UnitOf(c.blockSize, q);
      SpanRest(c.blockSize, batch[i].blocks[u], RestOf(c.blockSize, p), batch[k].blocks[v], RestOf(c.blockSize, q));
      SoleOwner(s.pool.tables, batch[i].id, u, batch[k].id, v);
      BatchDistinct(c, s, batch, i, k);
      Position(c.blockSize, p);
      Position(c.blockSize, q);
    }
  }

  lemma BatchTable(c: Config, s: State, batch: seq<Scheduled>, k: nat)
    requires Inv(c, s, batch) && k < |batch|
    ensures batch[k].id in s.pool.tables && batch[k].blocks == s.pool.tables[batch[k].id]
  {
    hide PoolOk, RunningOk, Order;
    assert EntryOk(s.pool, s.running[k], batch[k]);
  }

  /** Two solutions agree on every position of every request of the batch. */
  lemma {:induction false} SameReads(c: Config, s: State, kv: seq<KV>, a: seq<KV>, b: seq<KV>,
    batch: seq<Scheduled>, k: nat, n: nat)
    requires Inv(c, s, batch) && AllAddressable(c, kv, batch) && Lockstep(c, kv, a, batch) && Lockstep(c, kv, b, batch)
    requires k < |batch| && n <= batch[k].offset + |batch[k].tokens|
    ensures Addressable(c, a, batch[k]) && Addressable(c, b, batch[k])
    ensures Read(c, a, batch[k].blocks, n) == Read(c, b, batch[k].blocks, n)
  {
    hide Inv, Slot;
    var e := batch[k];
    assert Addressable(c, kv, e);
    if n > 0 {
      var q := n - 1;
      SameReads(c, s, kv, a, b, batch, k, q);
      SlotInPool(c, a, e.blocks, q);
      if Writes(e, q) {
        assert Reached(batch, |batch|, 0, k, q);
        assert Solved(c, a, e, q) && Solved(c, b, e, q);
      } else {
        Untouched(c, s, kv, a, batch, k, q);
        Untouched(c, s, kv, b, batch, k, q);
      }
      ReadNext(c, a, e.blocks, q);
      ReadNext(c, b, e.blocks, q);
    }
  }

  lemma Untouched(c: Config, s: State, kv: seq<KV>, kv': seq<KV>, batch: seq<Scheduled>, k: nat, q: nat)
    requires Inv(c, s, batch) && AllAddressable(c, kv, batch) && Lockstep(c, kv, kv', batch)
    requires k < |batch| && q < Span(c.blockSize, |batch[k].blocks|) && !Writes(batch[k], q)
    ensures Slot(c, batch[k].blocks, q) < |kv| && kv'[Slot(c, batch[k].blocks, q)] == kv[Slot(c, batch[k].blocks, q)]
  {
    hide Inv, Slot;
    assert Addressable(c, kv, batch[k]);
    SlotInPool(c, kv, batch[k].blocks, q);
    forall i: nat, p: nat | Reached(batch, |batch|, 0, i, p)
      ensures SlotOf(c, batch[i], p) != Slot(c, batch[k].blocks, q)
    {
      WrittenOnce(c, s, batch, i, p, k, q);
    }
  }

  lemma ReadNext(c: Config, kv: seq<KV>, t: seq<nat>, q: nat)
    requires q < Span(c.blockSize, |t|) && forall i :: 0 <= i < |t| ==> Span(c.blockSize, t[i]) + c.blockSize <= |kv|
    ensures Slot(c, t, q) < |kv| && Read(c, kv, t, q + 1) == Read(c, kv, t, q) + [kv[Slot(c, t, q)]]
  {
    hide Slot, Span;
    SlotInPool(c, kv, t, q);
    var a, b := Read(c, kv, t, q + 1), Read(c, kv, t, q);
    forall i: nat | i < q
      ensures a[i] == b[i]
    {
      SlotInPool(c, kv, t, i);
    }
  }

  /** The equations of a parallel step have at most one solution. */
  lemma OneSolution(c: Config, s: State, kv: seq<KV>, a: seq<KV>, b: seq<KV>, batch: seq<Scheduled>)
    requires Inv(c, s, batch) && AllAddressable(c, kv, batch) && Lockstep(c, kv, a, batch) && Lockstep(c, kv, b, batch)
    ensures a == b
  {
    hide Inv, Slot;
    forall x: nat | x < |kv|
      ensures a[x] == b[x]
    {
      if exists k: nat, q: nat :: Reached(batch, |batch|, 0, k, q) && SlotOf(c, batch[k], q) == x {
        var k: nat, q: nat :| Reached(batch, |batch|, 0, k, q) && SlotOf(c, batch[k], q) == x;
        assert Addressable(c, a, batch[k]) && Solved(c, a, batch[k], q) && Solved(c, b, batch[k], q);
        SameReads(c, s, kv, a, b, batch, k, q);
      }
    }
  }

  // ---------------------------------------------------------------- the sequential model

  lemma NothingSolved(c: Config, kv: seq<KV>, batch: seq<Scheduled>)
    requires AllAddressable(c, kv, batch)
    ensures SolvedTo(c, kv, kv, batch, 0, 0)
  {
  }

  /** Nothing is written between these two points of the step. */
  lemma SameSolved(c: Config, kv: seq<KV>, kv': seq<KV>, batch: seq<Scheduled>, i: nat, p: nat, i': nat, p': nat)
    requires AllAddressable(c, kv, batch) && SolvedTo(c, kv, kv', batch, i, p)
    requires forall k: nat, q: nat :: Reached(batch, i, p, k, q) <==> Reached(batch, i', p', k, q)
    ensures SolvedTo(c, kv, kv', batch, i', p')
  {
    hide Solved, Slot, SlotOf, Addressable, Reached;
  }

  /** Writing one more token keeps all equations: no context read so far contains its slot. */
  lemma WriteSolves(c: Config, s: State, kv: seq<KV>, cur: seq<KV>, batch: seq<Scheduled>, i: nat, p: nat)
    requires Inv(c, s, batch) && AllAddressable(c, kv, batch) && SolvedTo(c, kv, cur, batch, i, p)
    requires i < |batch| && Writes(batch[i], p)
    ensures Addressable(c, cur, batch[i])
    ensures SolvedTo(c, kv, WriteOne(c, cur, batch[i], p), batch, i, p + 1)
  {
    hide Inv, Solved, SlotOf, WriteOne;
    SolvedSize(c, kv, cur, batch, i, p);
    var kv' := WriteOne(c, cur, batch[i], p);
    SolvedSame(c, cur, kv', batch);
    forall k: nat, q: nat | Reached(batch, i, p + 1, k, q)
      ensures Solved(c, kv', batch[k], q)
    {
      StillSolved(c, s, kv, cur, batch, i, p, k, q);
    }
    forall x: nat |
      x < |kv| && (forall k: nat, q: nat :: Reached(batch, i, p + 1, k, q) ==> SlotOf(c, batch[k], q) != x)
      ensures kv'[x] == kv[x]
    {
      StillUntouched(c, kv, cur, batch, i, p, x);
    }
  }

  lemma SolvedSame(c: Config, kv: seq<KV>, kv': seq<KV>, batch: seq<Scheduled>)
    requires AllAddressable(c, kv, batch) && |kv'| == |kv|
    ensures AllAddressable(c, kv', batch)
  {
  }

  lemma StillSolved(
    c: Config, s: State, kv: seq<KV>, cur: seq<KV>, batch: seq<Scheduled>, i: nat, p: nat, k: nat, q: nat)
    requires Inv(c, s, batch) && AllAddressable(c, kv, batch) && SolvedTo(c, kv, cur, batch, i, p)
    requires i < |batch| && Writes(batch[i], p) && Reached(batch, i, p + 1, k, q)
    requires AllAddressable(c, cur, batch)
    ensures Addressable(c, WriteOne(c, cur, batch[i], p), batch[k])
    ensures Solved(c, WriteOne(c, cur, batch[i], p), batch[k], q)
  {
    hide Inv, Slot, Read;
    assert Addressable(c, cur, batch[i]) && Addressable(c, cur, batch[k]);
    ReadKept(c, s, cur, batch, i, p, k, q);
    SlotInPool(c, cur, batch[i].blocks, p);
    SlotInPool(c, cur, batch[k].blocks, q);
    if !(k == i && q == p) {
      assert Reached(batch, i, p, k, q);
      assert Solved(c, cur, batch[k], q);
      WrittenOnce(c, s, batch, i, p, k, q);
    }
  }

  lemma StillUntouched(c: Config, kv: seq<KV>, cur: seq<KV>, batch: seq<Scheduled>, i: nat, p: nat, x: nat)
    requires AllAddressable(c, kv, batch) && SolvedTo(c, kv, cur, batch, i, p) && AllAddressable(c, cur, batch)
    requires i < |batch| && Writes(batch[i], p) && x < |kv|
    requires forall k: nat, q: nat :: Reached(batch, i, p + 1, k, q) ==> SlotOf(c, batch[k], q) != x
    ensures WriteOne(c, cur, batch[i], p)[x] == kv[x]
  {
    hide Slot, Read, Solved;
    assert Addressable(c, cur, batch[i]);
    SlotInPool(c, cur, batch[i].blocks, p);
    assert Reached(batch, i, p + 1, i, p);
    forall k: nat, q: nat | Reached(batch, i, p, k, q)
      ensures SlotOf(c, batch[k], q) != x
    {
      assert Reached(batch, i, p + 1, k, q);
    }
    assert cur[x] == kv[x];
    assert SlotOf(c, batch[i], p) != x;
  }

  /** The context of a token that is computed no later does not contain the slot written now. */
  lemma ReadKept(c: Config, s: State, cur: seq<KV>, batch: seq<Scheduled>, i: nat, p: nat, k: nat, q: nat)
    requires Inv(c, s, batch) && i < |batch| && k < |batch| && Writes(batch[i], p) && Writes(batch[k], q)
    requires Addressable(c, cur, batch[i]) && Addressable(c, cur, batch[k]) && Before(k, q, i, p + 1)
    ensures Read(c, WriteOne(c, cur, batch[i], p), batch[k].blocks, q) == Read(c, cur, batch[k].blocks, q)
  {
    hide Inv, Slot;
    var kv' := WriteOne(c, cur, batch[i], p);
    forall r: nat | r < q
      ensures Slot(c, batch[k].blocks, r) < |cur|
      ensures kv'[Slot(c, batch[k].blocks, r)] == cur[Slot(c, batch[k].blocks, r)]
    {
      SlotInPool(c, cur, batch[k].blocks, r);
      SlotInPool(c, cur, batch[i].blocks, p);
      WrittenOnce(c, s, batch, i, p, k, r);
    }
  }

  lemma {:induction false} ForwardSolves(c: Config, s: State, kv: seq<KV>, cur: seq<KV>, batch: seq<Scheduled>,
    i: nat, p: nat)
    requires Inv(c, s, batch) && AllAddressable(c, kv, batch) && SolvedTo(c, kv, cur, batch, i, p)
    requires i < |batch| && batch[i].offset <= p <= batch[i].offset + |batch[i].tokens|
    ensures Addressable(c, cur, batch[i])
    ensures SolvedTo(c, kv, Forward(c, cur, batch[i], p), batch, i + 1, 0)
    decreases batch[i].offset + |batch[i].tokens| - p
  {
    hide Inv, SolvedTo, WriteOne;
    SolvedSize(c, kv, cur, batch, i, p);
    if p == batch[i].offset + |batch[i].tokens| {
      SameSolved(c, kv, cur, batch, i, p, i + 1, 0);
    } else {
      WriteSolves(c, s, kv, cur, batch, i, p);
      ForwardSolves(c, s, kv, WriteOne(c, cur, batch[i], p), batch, i, p + 1);
    }
  }

  lemma SolvedSize(c: Config, kv: seq<KV>, kv': seq<KV>, batch: seq<Scheduled>, i: nat, p: nat)
    requires AllAddressable(c, kv, batch) && SolvedTo(c, kv, kv', batch, i, p)
    ensures |kv'| == |kv| && AllAddressable(c, kv', batch)
  {
  }

  lemma {:induction false} ForwardAllSolves(c: Config, s: State, kv: seq<KV>, cur: seq<KV>, batch: seq<Scheduled>,
    i: nat)
    requires Inv(c, s, batch) && AllAddressable(c, kv, batch) && i <= |batch| && SolvedTo(c, kv, cur, batch, i, 0)
    ensures AllAddressable(c, cur, batch) && Lockstep(c, kv, ForwardAll(c, cur, batch, i), batch)
    decreases |batch| - i
  {
    hide Inv, SolvedTo, Forward;
    SolvedSize(c, kv, cur, batch, i, 0);
    if i < |batch| {
      SameSolved(c, kv, cur, batch, i, 0, i, batch[i].offset);
      ForwardSolves(c, s, kv, cur, batch, i, batch[i].offset);
      ForwardAllSolves(c, s, kv, Forward(c, cur, batch[i], batch[i].offset), batch, i + 1);
    }
  }

  /** A parallel step and the executor's token-by-token step leave the same pool, for every
      batch the scheduler hands out. */
  lemma ParallelIsSequential(c: Config, s: State, kv: seq<KV>, kv': seq<KV>, batch: seq<Scheduled>)
    requires Inv(c, s, batch) && |kv| == Span(c.blockSize, c.numBlocks)
    ensures AllAddressable(c, kv, batch)
    ensures Lockstep(c, kv, kv', batch) <==> kv' == ForwardAll(c, kv, batch, 0)
  {
    hide Inv, SolvedTo, ForwardAll, Lockstep;
    BatchAddressable(c, s, kv, batch);
    NothingSolved(c, kv, batch);
    ForwardAllSolves(c, s, kv, kv, batch, 0);
    if Lockstep(c, kv, kv', batch) {
      OneSolution(c, s, kv, kv', ForwardAll(c, kv, batch, 0), batch);
    }
  }
}
