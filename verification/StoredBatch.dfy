/** A step as the device runs it: entries are computed from what attention reads through the
    uploaded block table, and the store kernel puts them in the packed slots.  This is the
    step of the executor. */
module StoredBatch {
  import opened Types
  import opened Arith
  import opened Bits
  import opened Decoder
  import opened SchedulerModel
  import opened ScheduleStep
  import opened StepTheorems
  import opened Executor
  import opened Lockstep
  import opened BatchBuffer
  import opened PagedAccess

  /** The first n positions as attention reads them through a row of the block table. */
  ghost function DeviceRead(kv: seq<KV>, row: seq<int>, shift: nat, n: nat): (r: seq<KV>)
    ensures |r| == n
  {
    seq(n, p requires 0 <= p < n => EntryAt(kv, row, shift, p))
  }

  ghost function EntryAt(kv: seq<KV>, row: seq<int>, shift: nat, p: nat): KV {
    if Shr(p, shift) < |row| && row[Shr(p, shift)] >= 0 && 0 <= ReadSlot(row, shift, p) < |kv|
    then kv[ReadSlot(row, shift, p)] else Blank
  }

  /** Reading through the row is reading through the request's table. */
  lemma DeviceReadIs(c: Config, kv: seq<KV>, e: Scheduled, stride: nat, shift: nat, n: nat)
    requires c.blockSize == Pow2(shift) && Addressable(c, kv, e) && |e.blocks| <= stride
    requires n <= Span(c.blockSize, |e.blocks|)
    ensures DeviceRead(kv, TableRow(e, stride), shift, n) == Read(c, kv, e.blocks, n)
  {
    hide Slot, ReadSlot, TableRow, Shr, Pow2;
    forall p | 0 <= p < n
      ensures EntryAt(kv, TableRow(e, stride), shift, p) == Read(c, kv, e.blocks, n)[p]
    {
      ReadsWhatIsWritten(c, e, stride, shift, p);
      SlotInPool(c, kv, e.blocks, p);
      RowSize(e, stride);
    }
  }

  /** The slots of a packed batch and of the padding behind it. */
  ghost function PackedSlots(c: Config, batch: seq<Scheduled>, padding: nat): seq<int>
    requires Packable(c, batch)
  {
    FlatSlots(c, batch, |batch|) + Filled(padding, -1)
  }

  /** The entry of token q of request k is made of the token packed for it and of the context
      that attention reads; kv is the pool when all is done. */
  ghost predicate MadeOf(
    kv: seq<KV>, batch: seq<Scheduled>, stride: nat, shift: nat, entries: seq<KV>, k: nat, q: nat)
    requires k < |batch| && |batch[k].blocks| <= stride
  {
    var at := Total(batch[..k]) + q - batch[k].offset;
    && 0 <= at < |entries| && at < |FlatTokens(batch, |batch|)|
    && entries[at] == Entry(DeviceRead(kv, TableRow(batch[k], stride), shift, q), FlatTokens(batch, |batch|)[at])
  }

  /** So is every entry of the batch; what the padding computes does not matter. */
  ghost predicate AllMade(kv: seq<KV>, batch: seq<Scheduled>, stride: nat, shift: nat, entries: seq<KV>)
    requires forall k :: 0 <= k < |batch| ==> |batch[k].blocks| <= stride
  {
    forall k: nat, q: nat :: k < |batch| && Writes(batch[k], q) ==> MadeOf(kv, batch, stride, shift, entries, k, q)
  }

  lemma PackedSlotsOk(c: Config, s: State, batch: seq<Scheduled>, padding: nat)
    requires Inv(c, s, batch) && Packable(c, batch)
    ensures |PackedSlots(c, batch, padding)| == Total(batch) + padding && Exclusive(PackedSlots(c, batch, padding))
    ensures forall k :: 0 <= k < |PackedSlots(c, batch, padding)| ==>
              PackedSlots(c, batch, padding)[k] < Span(c.blockSize, c.numBlocks)
  {
    hide Inv, Packable, FlatSlots, Total;
    ScheduledSlots(c, s, batch);
  }

  /** Where token q of request k is packed, and the slot it goes to. */
  lemma PackedSlotAt(c: Config, batch: seq<Scheduled>, padding: nat, k: nat, q: nat)
    requires Packable(c, batch) && k < |batch| && Writes(batch[k], q)
    ensures var at := Total(batch[..k]) + q - batch[k].offset;
            && 0 <= at < Total(batch) == |FlatTokens(batch, |batch|)|
            && FlatTokens(batch, |batch|)[at] == batch[k].tokens[q - batch[k].offset]
            && |PackedSlots(c, batch, padding)| == Total(batch) + padding
            && PackedSlots(c, batch, padding)[at] == SlotOf(c, batch[k], q) >= 0
  {
    hide FlatTokens, FlatSlots, FlatPositions, Total, Slot;
    assert batch[..|batch|] == batch;
    AllFit(c, batch);
    PackedAt(c, batch, |batch|, k, q - batch[k].offset);
  }

  /** Every slot that is written is the slot of a token of the batch. */
  lemma PackedFrom(c: Config, batch: seq<Scheduled>, padding: nat, at: nat) returns (k: nat, q: nat)
    requires Packable(c, batch) && |PackedSlots(c, batch, padding)| == Total(batch) + padding
    requires at < Total(batch) + padding && PackedSlots(c, batch, padding)[at] >= 0
    ensures k < |batch| && Writes(batch[k], q) && at == Total(batch[..k]) + q - batch[k].offset
    ensures PackedSlots(c, batch, padding)[at] == SlotOf(c, batch[k], q)
  {
    hide Total, FlatSlots, FlatTokens, Packable;
    assert batch[..|batch|] == batch;
    var i, j := Locate(batch, |batch|, at);
    k, q := i, batch[i].offset + j;
    PackedSlotAt(c, batch, padding, k, q);
  }

  /** The entry that is due at a packed index is the one that the equations ask for. */
  lemma MadeIsSolved(
    c: Config, kv: seq<KV>, batch: seq<Scheduled>, stride: nat, shift: nat, entries: seq<KV>, k: nat, q: nat)
    requires c.blockSize == Pow2(shift) && Packable(c, batch) && k < |batch| && |batch[k].blocks| <= stride
    requires Writes(batch[k], q) && Addressable(c, kv, batch[k]) && MadeOf(kv, batch, stride, shift, entries, k, q)
    ensures 0 <= SlotOf(c, batch[k], q) < |kv|
    ensures Solved(c, kv, batch[k], q) <==>
              kv[SlotOf(c, batch[k], q)] == entries[Total(batch[..k]) + q - batch[k].offset]
  {
    hide Slot, FlatTokens, Total, Packable, TableRow, DeviceRead, PackedSlots, Pow2;
    PackedSlotAt(c, batch, 0, k, q);
    SlotInPool(c, kv, batch[k].blocks, q);
    DeviceReadIs(c, kv, batch[k], stride, shift, q);
  }

  /** A step on the device is the executor's step: given that each entry is computed from the
      packed token and from what attention reads through the uploaded table, the pool that
      the store kernel leaves behind is the one that computing token by token gives. */
  lemma StoredIsForward(
    c: Config, s: State, kv: seq<KV>, kv': seq<KV>, batch: seq<Scheduled>, stride: nat, shift: nat,
    entries: seq<KV>, padding: nat)
    requires Inv(c, s, batch) && Packable(c, batch) && |kv'| == |kv| == Span(c.blockSize, c.numBlocks)
    requires c.blockSize == Pow2(shift) && forall k :: 0 <= k < |batch| ==> |batch[k].blocks| <= stride
    requires |entries| == Total(batch) + padding && AllMade(kv', batch, stride, shift, entries)
    ensures AllAddressable(c, kv, batch)
    ensures forall i :: 0 <= i < |PackedSlots(c, batch, padding)| ==> PackedSlots(c, batch, padding)[i] < |kv|
    ensures |PackedSlots(c, batch, padding)| == |entries|
    ensures kv' == Stored(kv, PackedSlots(c, batch, padding), entries, |entries|) <==>
              kv' == ForwardAll(c, kv, batch, 0)
  {
    hide Inv, Packable, Total, ForwardAll, Lockstep.Lockstep, AllMade, Stored, PackedSlots, Exclusive, AllAddressable;
    PackedSlotsOk(c, s, batch, padding);
    ParallelIsSequential(c, s, kv, kv', batch);
    if kv' == Stored(kv, PackedSlots(c, batch, padding), entries, |entries|) {
      StoredIsLockstep(c, s, kv, kv', batch, stride, shift, entries, padding);
    }
    if Lockstep.Lockstep(c, kv, kv', batch) {
      LockstepIsStored(c, s, kv, kv', batch, stride, shift, entries, padding);
    }
  }

  lemma StoredIsLockstep(
    c: Config, s: State, kv: seq<KV>, kv': seq<KV>, batch: seq<Scheduled>, stride: nat, shift: nat,
    entries: seq<KV>, padding: nat)
    requires Inv(c, s, batch) && Packable(c, batch) && |kv'| == |kv| == Span(c.blockSize, c.numBlocks)
    requires c.blockSize == Pow2(shift) && forall k :: 0 <= k < |batch| ==> |batch[k].blocks| <= stride
    requires |entries| == Total(batch) + padding && AllMade(kv', batch, stride, shift, entries)
    requires AllAddressable(c, kv, batch)
    requires |PackedSlots(c, batch, padding)| == |entries| && Exclusive(PackedSlots(c, batch, padding))
    requires forall i :: 0 <= i < |entries| ==> PackedSlots(c, batch, padding)[i] < |kv|
    requires kv' == Stored(kv, PackedSlots(c, batch, padding), entries, |entries|)
    ensures Lockstep.Lockstep(c, kv, kv', batch)
  {
    hide Inv, Packable, Total, Stored, PackedSlots, Exclusive, Solved, Addressable, MadeOf, SlotOf, Writes;
    var slots, n := PackedSlots(c, batch, padding), |entries|;
    forall k: nat, q: nat | Reached(batch, |batch|, 0, k, q)
      ensures Addressable(c, kv', batch[k]) && Solved(c, kv', batch[k], q)
    {
      SameAddressable(c, kv, kv', batch[k]);
      PackedSlotAt(c, batch, padding, k, q);
      var x := SlotOf(c, batch[k], q);
      assert MadeOf(kv', batch, stride, shift, entries, k, q);
      MadeIsSolved(c, kv', batch, stride, shift, entries, k, q);
      StoredAt(kv, slots, entries, n, x);
    }
    forall x: nat |
      x < |kv| && forall k: nat, q: nat :: Reached(batch, |batch|, 0, k, q) ==> SlotOf(c, batch[k], q) != x
      ensures kv'[x] == kv[x]
    {
      forall at | 0 <= at < n
        ensures slots[at] != x
      {
        if slots[at] >= 0 {
          var k, q := PackedFrom(c, batch, padding, at);
          assert Reached(batch, |batch|, 0, k, q);
        }
      }
      StoredAt(kv, slots, entries, n, x);
    }
  }

  lemma LockstepIsStored(
    c: Config, s: State, kv: seq<KV>, kv': seq<KV>, batch: seq<Scheduled>, stride: nat, shift: nat,
    entries: seq<KV>, padding: nat)
    requires Inv(c, s, batch) && Packable(c, batch) && |kv'| == |kv| == Span(c.blockSize, c.numBlocks)
    requires c.blockSize == Pow2(shift) && forall k :: 0 <= k < |batch| ==> |batch[k].blocks| <= stride
    requires |entries| == Total(batch) + padding && AllMade(kv', batch, stride, shift, entries)
    requires AllAddressable(c, kv, batch)
    requires |PackedSlots(c, batch, padding)| == |entries| && Exclusive(PackedSlots(c, batch, padding))
    requires forall i :: 0 <= i < |entries| ==> PackedSlots(c, batch, padding)[i] < |kv|
    requires Lockstep.Lockstep(c, kv, kv', batch)
    ensures kv' == Stored(kv, PackedSlots(c, batch, padding), entries, |entries|)
  {
    hide Inv, Packable, Total, Stored, PackedSlots, Exclusive, Solved, Addressable, MadeOf, SlotOf, Writes;
    var slots, n := PackedSlots(c, batch, padding), |entries|;
    forall at | 0 <= at < n && slots[at] >= 0
      ensures kv'[slots[at]] == entries[at]
    {
      var k, q := PackedFrom(c, batch, padding, at);
      assert Reached(batch, |batch|, 0, k, q);
      assert MadeOf(kv', batch, stride, shift, entries, k, q);
      MadeIsSolved(c, kv', batch, stride, shift, entries, k, q);
    }
    forall x | 0 <= x < |kv| && forall at :: 0 <= at < n ==> slots[at] != x
      ensures kv'[x] == kv[x]
    {
      forall k: nat, q: nat | Reached(batch, |batch|, 0, k, q)
        ensures SlotOf(c, batch[k], q) != x
      {
        PackedSlotAt(c, batch, padding, k, q);
      }
    }
    AnyOrder(kv, kv', slots, entries);
  }
}
