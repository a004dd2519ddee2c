/** The two ends of the paged cache: the kernel that writes a step's entries at the packed
    slots, and the address translation with which attention reads them back. */
module PagedAccess {
  import opened Types
  import opened Arith
  import opened Bits
  import opened PoolInvariant
  import opened SchedulerModel
  import opened ScheduleStep
  import opened StepTheorems
  import opened BatchBuffer

  // ---------------------------------------------------------------- reading

  /** Attention's address of a position: shifts and masks instead of divisions. */
  function ReadSlot(row: seq<int>, shift: nat, pos: nat): int
    requires Shr(pos, shift) < |row| && row[Shr(pos, shift)] >= 0
  {
    Shl(row[Shr(pos, shift)], shift) + And(pos, Shl(1, shift) - 1)
  }

  /** What attention reads for a position of the request is what was packed for it, and it is
      in the request's own table, never in the zeros behind it. */
  lemma ReadsWhatIsWritten(c: Config, e: Scheduled, stride: nat, shift: nat, pos: nat)
    requires c.blockSize == Pow2(shift) && |e.blocks| <= stride && pos < Span(c.blockSize, |e.blocks|)
    ensures Shr(pos, shift) < |e.blocks| && TableRow(e, stride)[Shr(pos, shift)] == e.blocks[Shr(pos, shift)]
    ensures ReadSlot(TableRow(e, stride), shift, pos) == Slot(c, e.blocks, pos)
  {
    hide Shl, Shr, And, Pow2, Slot;
    var d := Pow2(shift);
    ShrIs(pos, shift);
    ShlIs(1, shift);
    AndOnes(pos, shift);
    SlotIsDivMod(c, e.blocks, pos);
    ShlIs(e.blocks[pos / d], shift);
  }

  // ---------------------------------------------------------------- writing

  /** The cache after the first i tokens' entries have been stored; negative slots are padding. */
  function Stored<T>(cache: seq<T>, slots: seq<int>, entries: seq<T>, i: nat): (r: seq<T>)
    requires i <= |slots| && i <= |entries| && forall k :: 0 <= k < |slots| ==> slots[k] < |cache|
    ensures |r| == |cache|
  {
    if i == 0 then cache
    else
      var before := Stored(cache, slots, entries, i - 1);
      if slots[i - 1] < 0 then before else before[slots[i - 1] := entries[i - 1]]
  }

  /** One thread block for each token; the blocks may run in any order. */
  method UpdateCache<T>(cache: array<T>, slots: seq<int>, entries: seq<T>)
    requires |slots| == |entries| && forall k :: 0 <= k < |slots| ==> slots[k] < cache.Length
    modifies cache
    ensures cache[..] == Stored(old(cache[..]), slots, entries, |slots|)
  {
    for i := 0 to |slots|
      invariant cache[..] == Stored(old(cache[..]), slots, entries, i)
    {
      var slot := slots[i];
      if slot >= 0 {
        cache[slot] := entries[i];
      }
    }
  }

  /** No two tokens are stored in the same slot; padding does not count. */
  ghost predicate Exclusive(slots: seq<int>) {
    forall a, b :: 0 <= a < b < |slots| && slots[a] >= 0 ==> slots[a] != slots[b]
  }

  lemma {:induction false} StoredAt<T>(cache: seq<T>, slots: seq<int>, entries: seq<T>, n: nat, x: nat)
    requires n <= |slots| && n <= |entries| && (forall k :: 0 <= k < |slots| ==> slots[k] < |cache|)
    requires Exclusive(slots) && x < |cache|
    ensures forall k :: 0 <= k < n && slots[k] == x ==> Stored(cache, slots, entries, n)[x] == entries[k]
    ensures (forall k :: 0 <= k < n ==> slots[k] != x) ==> Stored(cache, slots, entries, n)[x] == cache[x]
  {
    if n > 0 { StoredAt(cache, slots, entries, n - 1, x); }
  }

  /** The order of the thread blocks does not matter: whatever puts each entry in its slot
      and leaves the other slots alone has the same outcome. */
  lemma AnyOrder<T>(cache: seq<T>, cache': seq<T>, slots: seq<int>, entries: seq<T>)
    requires |slots| == |entries| && |cache'| == |cache| && forall k :: 0 <= k < |slots| ==> slots[k] < |cache|
    requires Exclusive(slots)
    requires forall k :: 0 <= k < |slots| && slots[k] >= 0 ==> cache'[slots[k]] == entries[k]
    requires forall x :: 0 <= x < |cache| && (forall k :: 0 <= k < |slots| ==> slots[k] != x) ==> cache'[x] == cache[x]
    ensures cache' == Stored(cache, slots, entries, |slots|)
  {
    forall x | 0 <= x < |cache|
      ensures cache'[x] == Stored(cache, slots, entries, |slots|)[x]
    {
      StoredAt(cache, slots, entries, |slots|, x);
    }
  }

  /** Padding a batch writes nothing. */
  lemma {:induction false} PaddingWritesNothing<T>(cache: seq<T>, slots: seq<int>, entries: seq<T>, n: nat, m: nat)
    requires n <= m <= |slots| && m <= |entries| && forall k :: 0 <= k < |slots| ==> slots[k] < |cache|
    requires forall k :: n <= k < m ==> slots[k] == -1
    ensures Stored(cache, slots, entries, m) == Stored(cache, slots, entries, n)
    decreases m
  {
    if n < m { PaddingWritesNothing(cache, slots, entries, n, m - 1); }
  }

  // ---------------------------------------------------------------- scheduled batches

  /** The request and the token at a packed index. */
  lemma {:induction false} Locate(batch: seq<Scheduled>, n: nat, at: nat) returns (i: nat, j: nat)
    requires n <= |batch| && at < Total(batch[..n])
    ensures i < n && j < |batch[i].tokens| && at == Total(batch[..i]) + j
  {
    hide Total;
    if n == 0 {
      NoTotal(batch);
    } else {
      TotalNext(batch, n - 1);
      if at < Total(batch[..n - 1]) { i, j := Locate(batch, n - 1, at); }
          else { i, j := n - 1, at - Total(batch[..n - 1]); }
    }
  }

  lemma NoTotal(batch: seq<Scheduled>)
    ensures Total(batch[..0]) == 0
  {
  }

  lemma {:induction false} TotalsGrow(batch: seq<Scheduled>, i: nat, k: nat)
    requires i < k <= |batch|
    ensures Total(batch[..i]) + |batch[i].tokens| <= Total(batch[..k])
  {
    hide Total;
    TotalNext(batch, k - 1);
    if i < k - 1 { TotalsGrow(batch, i, k - 1); }
  }

  lemma SlotsDiffer(c: Config, s: State, batch: seq<Scheduled>, a: nat, b: nat)
    requires Inv(c, s, batch) && Packable(c, batch) && a < b < Total(batch)
    ensures FlatSlots(c, batch, |batch|)[a] != FlatSlots(c, batch, |batch|)[b]
  {
    hide Inv, Slot, FlatSlots, Total;
    var n := |batch|;
    assert batch[..n] == batch;
    AllFit(c, batch);
    var i, j := Locate(batch, n, a);
    var k, l := Locate(batch, n, b);
    PackedAt(c, batch, n, i, j);
    PackedAt(c, batch, n, k, l);
    ExclusiveWrites(c, s, batch, i, batch[i].offset + j, k, batch[k].offset + l);
  }

  lemma AllFit(c: Config, batch: seq<Scheduled>)
    requires Packable(c, batch)
    ensures forall k :: 0 <= k < |batch| ==> EntryFits(c, batch[k])
  {
  }

  lemma SlotInside(c: Config, s: State, batch: seq<Scheduled>, a: nat)
    requires Inv(c, s, batch) && Packable(c, batch) && a < Total(batch)
    ensures 0 <= FlatSlots(c, batch, |batch|)[a] < Span(c.blockSize, c.numBlocks)
  {
    hide Inv, Slot, FlatSlots, Total;
    var n := |batch|;
    assert batch[..n] == batch;
    AllFit(c, batch);
    var i, j := Locate(batch, n, a);
    PackedAt(c, batch, n, i, j);
    WrittenSlot(c, s, batch, i, batch[i].offset + j);
  }

  /** The packed slots of a scheduled batch are all different, and all inside the pool. */
  lemma ScheduledSlots(c: Config, s: State, batch: seq<Scheduled>)
    requires Inv(c, s, batch) && Packable(c, batch)
    ensures |FlatSlots(c, batch, |batch|)| == Total(batch) && Exclusive(FlatSlots(c, batch, |batch|))
    ensures forall k :: 0 <= k < Total(batch) ==> 0 <= FlatSlots(c, batch, |batch|)[k] < Span(c.blockSize, c.numBlocks)
  {
    hide Inv, FlatSlots, Total;
    assert batch[..|batch|] == batch;
    forall a, b | 0 <= a < b < Total(batch)
      ensures FlatSlots(c, batch, |batch|)[a] != FlatSlots(c, batch, |batch|)[b]
    {
      SlotsDiffer(c, s, batch, a, b);
    }
    forall k | 0 <= k < Total(batch)
      ensures 0 <= FlatSlots(c, batch, |batch|)[k] < Span(c.blockSize, c.numBlocks)
    {
      SlotInside(c, s, batch, k);
    }
  }

  /** Each token of a batch is stored where attention will look for its position. */
  lemma StoredWhereRead(c: Config, batch: seq<Scheduled>, stride: nat, shift: nat, i: nat, j: nat)
    requires c.blockSize == Pow2(shift) && Packable(c, batch) && i < |batch| && j < |batch[i].tokens|
    requires |batch[i].blocks| <= stride
    ensures var at, pos := Total(batch[..i]) + j, batch[i].offset + j;
            && at < Total(batch) && Shr(pos, shift) < |batch[i].blocks|
            && FlatTokens(batch, |batch|)[at] == batch[i].tokens[j]
            && FlatSlots(c, batch, |batch|)[at] == ReadSlot(TableRow(batch[i], stride), shift, pos)
  {
    hide Slot, FlatSlots, FlatTokens, FlatPositions, Total, ReadSlot, TableRow;
    assert batch[..|batch|] == batch;
    AllFit(c, batch);
    PackedAt(c, batch, |batch|, i, j);
    ReadsWhatIsWritten(c, batch[i], stride, shift, batch[i].offset + j);
  }

  lemma WrittenSlot(c: Config, s: State, batch: seq<Scheduled>, i: nat, p: nat)
    requires Inv(c, s, batch) && i < |batch| && Writes(batch[i], p)
    ensures p < Span(c.blockSize, |batch[i].blocks|) && Slot(c, batch[i].blocks, p) < Span(c.blockSize, c.numBlocks)
  {
    hide PoolOk, RunningOk, EntryOk, Order, Slot;
    WrittenBlock(c, s, batch, i, p);
    SlotIs(c, batch[i].blocks, p);
    SpanGrows(c.blockSize, batch[i].blocks[UnitOf(c.blockSize, p)], c.numBlocks);
  }

  /** Every batch the scheduler hands out fits the buffer. */
  lemma ScheduledFits(c: Config, s: State)
    requires Inv(c, s, [])
    ensures Packable(c, Schedule(c, s).1)
  {
    hide PoolOk, Order, NoDup, Schedule, MaxStride;
    ScheduleWithinLimits(c, s);
    var (s', batch) := Schedule(c, s);
    forall i | 0 <= i < |batch|
      ensures EntryFits(c, batch[i])
    {
      FedEntryFits(c, s', batch, i);
    }
  }

  lemma FedEntryFits(c: Config, s: State, batch: seq<Scheduled>, i: nat)
    requires Inv(c, s, batch) && i < |batch|
    ensures EntryFits(c, batch[i])
  {
    hide PoolOk, Order, NoDup, TableOk;
    var r, e := s.running[i], batch[i];
    assert RunningOk(c, s.pool, r, Dones(s, batch)[i]);
    assert EntryOk(s.pool, r, e);
    CeilDivBounds(r.numComputed, c.blockSize);
    CeilDivBounds(c.maxModelLen, c.blockSize);
    CeilDivLeast(r.numComputed, c.blockSize, CeilDiv(c.maxModelLen, c.blockSize));
  }
}
