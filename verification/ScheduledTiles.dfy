/** The attention tiles of the batches that the scheduler hands out. */
module ScheduledTiles {
  import opened Types
  import opened Arith
  import opened CachePool
  import opened SchedulerModel
  import opened ScheduleStep
  import opened BatchBuffer
  import opened AttentionTiles
  import opened PagedAccess

  /** The query starts of a packed batch. */
  function BatchStarts(batch: seq<Scheduled>): (q: seq<nat>)
    ensures |q| == |batch| + 1
  {
    Starts(batch, |batch|)
  }

  /** How many keys a request has once the step is done. */
  function SeqLen(e: Scheduled): nat {
    e.offset + |e.tokens|
  }

  lemma BatchStartsAt(batch: seq<Scheduled>, i: nat)
    requires i <= |batch|
    ensures BatchStarts(batch)[i] == Total(batch[..i])
    ensures i < |batch| ==>
              && BatchStarts(batch)[i + 1] == BatchStarts(batch)[i] + |batch[i].tokens|
              && SeqLens(batch, |batch|)[i] == SeqLen(batch[i])
  {
    hide Total, Starts, SeqLens;
    StartsAt(batch, |batch|, i);
    if i < |batch| {
      StartsAt(batch, |batch|, i + 1);
      TotalNext(batch, i);
    }
  }

  /** What the search and the tiling demand of the query starts holds of every batch. */
  lemma BatchHasQueryStarts(c: Config, batch: seq<Scheduled>)
    requires Packable(c, batch) && batch != []
    ensures QueryStarts(BatchStarts(batch))
  {
    hide BatchStarts, Total, EntryFits;
    BatchStartsAt(batch, 0);
    NoTotal(batch);
    forall r | 0 <= r < |batch|
      ensures BatchStarts(batch)[r] < BatchStarts(batch)[r + 1]
    {
      BatchStartsAt(batch, r);
      FitsAt(c, batch, r);
    }
  }

  /** The launched grid ends with the last request's last tile. */
  lemma GridSize(batch: seq<Scheduled>, group: pos)
    ensures FirstTile(BatchStarts(batch), group, |batch|) == Total(batch) * group / 64 + |batch|
  {
    hide BatchStarts, Total, Starts;
    BatchStartsAt(batch, |batch|);
    assert batch[..|batch|] == batch;
    FirstTileIs(BatchStarts(batch), group, |batch|);
  }

  /** The row of head h of the group, for token j of a request. */
  function RowOf(group: pos, j: nat, h: nat): nat {
    j * group + h
  }

  lemma RowOfToken(group: pos, queryLen: nat, j: nat, h: nat)
    requires j < queryLen && h < group
    ensures RowOf(group, j, h) < queryLen * group && RowOf(group, j, h) / group == j
  {
    hide Span;
    SpanIsProduct(group, j);
    SpanIsProduct(group, queryLen);
    SpanGrows(group, j, queryLen);
    UnitRest(RowOf(group, j, h), group, j, h);
  }

  /** Token j of request i is computed, for head h of the group, by exactly one tile of the
      grid: at its own position, after all keys up to it, and within the request's blocks. */
  ghost predicate ComputedOnce(c: Config, batch: seq<Scheduled>, group: pos, i: nat, j: nat, h: nat)
    requires i < |batch|
  {
    var q, e, row := BatchStarts(batch), batch[i], RowOf(group, j, h);
    && QueryStarts(q) && q[i + 1] - q[i] == |e.tokens| && row < NumRows(q, group, i)
    && FirstTile(q, group, i) + row / TILE < Total(batch) * group / TILE + |batch|
    && (forall t: nat :: Computes(q, group, i, t, row) <==> t == FirstTile(q, group, i) + row / TILE)
    && RowPosition(e.offset, group, row) == e.offset + j
    && e.offset + j < KvLen(SeqLen(e), e.offset, group, row / TILE * TILE)
    && KvLen(SeqLen(e), e.offset, group, row / TILE * TILE) <= SeqLen(e) <= Span(c.blockSize, |e.blocks|)
  }

  lemma TokenComputedOnce(c: Config, batch: seq<Scheduled>, group: pos, i: nat, j: nat, h: nat)
    requires Packable(c, batch) && i < |batch| && j < |batch[i].tokens| && h < group
    ensures ComputedOnce(c, batch, group, i, j, h)
  {
    hide BatchStarts, Total, FirstTile, KvLen, Computes, Packable, QueryStarts, Starts;
    var q, e, row := BatchStarts(batch), batch[i], RowOf(group, j, h);
    BatchHasQueryStarts(c, batch);
    BatchStartsAt(batch, i);
    GridSize(batch, group);
    RowOfToken(group, |e.tokens|, j, h);
    FitsAt(c, batch, i);
    NumRowsIs(q, group, i, |e.tokens|);
    RowSeesItself(SeqLen(e), |e.tokens|, group, row / TILE * TILE, row);
    forall t: nat
      ensures FirstTile(q, group, i) + row / TILE < FirstTile(q, group, |q| - 1)
      ensures Computes(q, group, i, t, row) <==> t == FirstTile(q, group, i) + row / TILE
    {
      TilesPartition(q, group, i, row, t);
    }
    TilesPartition(q, group, i, row, 0);
  }

  lemma NumRowsIs(q: seq<nat>, group: pos, r: nat, n: nat)
    requires r + 1 < |q| && q[r + 1] == q[r] + n
    ensures NumRows(q, group, r) == n * group
  {
  }

  lemma OwnTable(c: Config, s: State, i: nat)
    requires Inv(c, s, []) && i < |Schedule(c, s).1|
    ensures Schedule(c, s).1[i].blocks == Table(Schedule(c, s).0.pool, Schedule(c, s).1[i].id)
  {
    hide Base, Order, Schedule;
    var (s', batch) := Schedule(c, s);
    assert EntryOk(s'.pool, s'.running[i], batch[i]);
  }

  /** So it is for whatever the scheduler hands out, and the blocks are the request's table. */
  lemma ScheduledTokenComputedOnce(c: Config, s: State, group: pos, i: nat, j: nat, h: nat)
    requires Inv(c, s, [])
    requires i < |Schedule(c, s).1| && j < |Schedule(c, s).1[i].tokens| && h < group
    ensures var (s', batch) := Schedule(c, s);
            ComputedOnce(c, batch, group, i, j, h) && batch[i].blocks == Table(s'.pool, batch[i].id)
  {
    hide Inv, Schedule, ComputedOnce, Packable;
    ScheduledFits(c, s);
    OwnTable(c, s, i);
    TokenComputedOnce(c, Schedule(c, s).1, group, i, j, h);
  }
}
