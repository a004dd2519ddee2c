/** How paged attention deals the query rows of a batch to tiles of 64 rows without a
    rectangular grid, and which keys each tile may look at. */
module AttentionTiles {
  import opened Types
  import opened Arith

  const TILE: pos := 64
  const WARP_ROWS: pos := 16

  /** Where the requests' queries start, one entry more than requests; none is empty. */
  ghost predicate QueryStarts(q: seq<nat>) {
    |q| > 1 && q[0] == 0 && forall r :: 0 <= r < |q| - 1 ==> q[r] < q[r + 1]
  }

  /** Query rows before request r: each token has a row for every head of its group. */
  function RowsBefore(q: seq<nat>, group: pos, r: nat): nat
    requires r < |q|
  {
    q[r] * group
  }

  function NumRows(q: seq<nat>, group: pos, r: nat): nat
    requires r + 1 < |q| && q[r] <= q[r + 1]
  {
    (q[r + 1] - q[r]) * group
  }

  /** The first tile of request r. */
  function FirstTile(q: seq<nat>, group: pos, r: nat): nat
    requires r < |q|
  {
    RowsBefore(q, group, r) / TILE + r
  }

  lemma RowsStep(q: seq<nat>, group: pos, r: nat)
    requires QueryStarts(q) && r + 1 < |q|
    ensures RowsBefore(q, group, r + 1) == RowsBefore(q, group, r) + NumRows(q, group, r)
    ensures NumRows(q, group, r) >= group
  {
    var n := q[r + 1] - q[r];
    Distributes(q[r], n, group);
    MulStep(0, n, group);
  }

  /** Request r has a tile for each 64 rows, and at most one more. */
  lemma TilesOf(q: seq<nat>, group: pos, r: nat)
    requires QueryStarts(q) && r + 1 < |q|
    ensures var n := FirstTile(q, group, r + 1) - FirstTile(q, group, r);
            CeilDiv(NumRows(q, group, r), TILE) <= n <= CeilDiv(NumRows(q, group, r), TILE) + 1
  {
    hide RowsBefore, NumRows;
    RowsStep(q, group, r);
  }

  lemma {:induction false} FirstTilesGrow(q: seq<nat>, group: pos, a: nat, b: nat)
    requires QueryStarts(q) && a <= b < |q|
    ensures FirstTile(q, group, a) + (b - a) <= FirstTile(q, group, b)
  {
    hide RowsBefore, NumRows;
    if a < b {
      FirstTilesGrow(q, group, a, b - 1);
      RowsStep(q, group, b - 1);
    }
  }

  /** Tile t belongs to request r. */
  ghost predicate Owns(q: seq<nat>, group: pos, r: nat, t: nat) {
    r + 1 < |q| && FirstTile(q, group, r) <= t < FirstTile(q, group, r + 1)
  }

  /** The kernel's search for the request of its tile. */
  method FindRequest(queryStartLoc: array<nat>, numReqs: nat, group: pos, tile: nat) returns (req: nat)
    requires numReqs + 1 <= queryStartLoc.Length && QueryStarts(queryStartLoc[..numReqs + 1])
    requires tile < FirstTile(queryStartLoc[..numReqs + 1], group, numReqs)
    ensures Owns(queryStartLoc[..numReqs + 1], group, req, tile)
  {
    hide RowsBefore, QueryStarts;
    ghost var q := queryStartLoc[..numReqs + 1];
    AtLeastOne(q);
    var lo, hi := 0, numReqs;
    FirstIsZero(q, group);
    while lo + 1 < hi
      invariant 0 <= lo < hi <= numReqs && FirstTile(q, group, lo) <= tile < FirstTile(q, group, hi)
    {
      var mid := (lo + hi) / 2;
      assert q[mid] == queryStartLoc[mid];
      var first := queryStartLoc[mid] * group / TILE + mid;
      FirstTileIs(q, group, mid);
      if first <= tile {
        lo := mid;
      } else {
        hi := mid;
      }
    }
    req := lo;
  }

  lemma AtLeastOne(q: seq<nat>)
    requires QueryStarts(q)
    ensures |q| > 1
  {
  }

  lemma FirstIsZero(q: seq<nat>, group: pos)
    requires QueryStarts(q)
    ensures FirstTile(q, group, 0) == 0
  {
  }

  lemma FirstTileIs(q: seq<nat>, group: pos, r: nat)
    requires r < |q|
    ensures FirstTile(q, group, r) == q[r] * group / TILE + r
  {
  }

  /** Every tile of the grid belongs to exactly one request. */
  lemma OneOwner(q: seq<nat>, group: pos, a: nat, b: nat, t: nat)
    requires QueryStarts(q) && Owns(q, group, a, t) && Owns(q, group, b, t)
    ensures a == b
  {
    hide FirstTile;
    if a < b { FirstTilesGrow(q, group, a + 1, b); }
    if b < a { FirstTilesGrow(q, group, b + 1, a); }
  }

  /** The rows of request r that tile t computes. */
  ghost predicate Computes(q: seq<nat>, group: pos, r: nat, t: nat, row: nat)
    requires QueryStarts(q)
  {
    && Owns(q, group, r, t)
    && var first := (t - FirstTile(q, group, r)) * TILE;
       first <= row < first + TILE && row < NumRows(q, group, r)
  }

  /** Every query row of every request is computed by exactly one tile of the grid. */
  lemma TilesPartition(q: seq<nat>, group: pos, r: nat, row: nat, t: nat)
    requires QueryStarts(q) && r + 1 < |q| && row < NumRows(q, group, r)
    ensures FirstTile(q, group, r) + row / TILE < FirstTile(q, group, |q| - 1)
    ensures Computes(q, group, r, t, row) <==> t == FirstTile(q, group, r) + row / TILE
  {
    hide FirstTile, NumRows;
    TilesOf(q, group, r);
    FirstTilesGrow(q, group, r + 1, |q| - 1);
    RowInCeil(row, NumRows(q, group, r));
  }

  lemma RowInCeil(row: nat, n: nat)
    requires row < n
    ensures row / TILE < CeilDiv(n, TILE)
  {
  }

  /** A request has at most one tile without rows, its last one. */
  lemma OneEmptyTile(q: seq<nat>, group: pos, r: nat, t: nat)
    requires QueryStarts(q) && Owns(q, group, r, t) && (t - FirstTile(q, group, r)) * TILE >= NumRows(q, group, r)
    ensures t == FirstTile(q, group, r + 1) - 1
  {
    hide FirstTile, NumRows;
    TilesOf(q, group, r);
    SpanIsProduct(TILE, t - FirstTile(q, group, r));
    CeilDivLeast(NumRows(q, group, r), TILE, t - FirstTile(q, group, r));
  }

  // ---------------------------------------------------------------- keys

  /** The position a query row stands for; a request's rows go token by token. */
  function RowPosition(prefixLen: nat, group: pos, row: nat): nat {
    prefixLen + row / group
  }

  /** The keys that a tile loads at all. */
  function KvLen(seqLen: nat, prefixLen: nat, group: pos, first: nat): nat {
    Min(seqLen, prefixLen + (first + TILE - 1) / group + 1)
  }

  predicate NeedsMask(prefixLen: nat, group: pos, warpStart: nat, kvStart: nat, kvLen: nat) {
    prefixLen + warpStart / group < kvStart + TILE || kvStart + TILE > kvLen
  }

  lemma DivGrows(a: nat, b: nat, d: pos)
    requires a <= b
    ensures a / d <= b / d
  {
    DivBelow(a, d, b / d + 1);
    InUnit(b, d);
  }

  /** Each row of a tile stands for a token of its request, and the tile loads every key up
      to that token's own. */
  lemma RowSeesItself(seqLen: nat, queryLen: nat, group: pos, first: nat, row: nat)
    requires 0 < queryLen <= seqLen && first <= row < first + TILE && row < queryLen * group
    ensures var prefixLen := seqLen - queryLen;
            && row / group < queryLen
            && RowPosition(prefixLen, group, row) < KvLen(seqLen, prefixLen, group, first) <= seqLen
  {
    SpanIsProduct(group, queryLen);
    DivBelow(row, group, queryLen);
    DivGrows(row, first + TILE - 1, group);
  }

  /** Where the kernel skips masking, every key of the tile is visible to every row of the warp. */
  lemma UnmaskedIsVisible(prefixLen: nat, group: pos, warpStart: nat, kvStart: nat, kvLen: nat, row: nat, key: nat)
    requires !NeedsMask(prefixLen, group, warpStart, kvStart, kvLen)
    requires warpStart <= row < warpStart + WARP_ROWS && kvStart <= key < kvStart + TILE
    ensures key < kvLen && key <= RowPosition(prefixLen, group, row)
  {
    DivGrows(warpStart, row, group);
  }
}
