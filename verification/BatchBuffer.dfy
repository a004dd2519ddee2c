/** The buffer through which a step's batch reaches the device: its layout, and how a batch
    is packed into it. */
module BatchBuffer {
  import opened Types
  import opened Arith
  import opened Bits
  import opened ScheduleStep
  import opened StepTheorems

  // ---------------------------------------------------------------- layout

  /** Rounds up to a multiple of 2^k in 64-bit arithmetic. */
  function AlignUp(k: nat, offset: nat): nat
    requires k <= 64 && offset + Pow2(k) - 1 < Pow2(64)
  {
    PowersGrow(k, 64);
    And(offset + Pow2(k) - 1, Pow2(64) - Pow2(k))
  }

  /** The unit that n + d - 1 lies in starts at the first multiple of d from n on. */
  lemma FirstUnit(n: nat, d: pos, q: nat, r: nat, y: nat)
    requires n + d - 1 == Span(d, q) + r && r < d
    ensures n <= Span(d, q) < n + d
    ensures n <= Span(d, y) ==> Span(d, q) <= Span(d, y)
  {
    if y < q { SpanGrows(d, y, q); } else { SpanGrows(d, q, y); }
  }

  lemma AlignUpIs(k: nat, offset: nat)
    requires k <= 64 && offset + Pow2(k) - 1 < Pow2(64)
    ensures var r := AlignUp(k, offset);
            && r % Pow2(k) == 0 && offset <= r < offset + Pow2(k)
            && forall x: nat :: x % Pow2(k) == 0 && offset <= x ==> r <= x
  {
    hide Pow2, And, Span;
    var d: pos, m := Pow2(k), offset + Pow2(k) - 1;
    AndHigh(m, 64, k);
    InUnit(m, d);
    UnitRest(Span(d, m / d), d, m / d, 0);
    FirstUnit(offset, d, m / d, m % d, 0);
    forall x: nat | x % d == 0 && offset <= x
      ensures AlignUp(k, offset) <= x
    {
      InUnit(x, d);
      FirstUnit(offset, d, m / d, m % d, x / d);
    }
  }

  /** A field of the buffer, in bytes. */
  datatype Region = Region(start: nat, size: nat)

  ghost predicate Apart(rs: seq<Region>, end: nat) {
    && (forall i, j :: 0 <= i < j < |rs| ==> rs[i].start + rs[i].size <= rs[j].start)
    && (forall i :: 0 <= i < |rs| ==> rs[i].start % 32 == 0 && rs[i].start + rs[i].size <= end)
  }

  const BYTES: nat := Pow2(64)

  /** Reserves an aligned region behind what has been reserved so far. */
  method Reserve(bufferSize: nat, size: nat, ghost rs: seq<Region>) returns (offset: nat, newSize: nat)
    requires Apart(rs, bufferSize) && bufferSize + 31 < BYTES
    ensures newSize == offset + size && offset <= bufferSize + 31 && Apart(rs + [Region(offset, size)], newSize)
  {
    assert Pow2(5) == 32;
    AlignUpIs(5, bufferSize);
    offset := AlignUp(5, bufferSize);
    newSize := offset + size;
  }

  datatype Offsets = Offsets(
    tokenIds: nat,
    positions: nat,
    slotMapping: nat,
    queryStartLoc: nat,
    seqLens: nat,
    blockTable: nat,
    logitsIndices: nat,
    sampleParams: nat,
    numTokens: nat)

  const INT_SIZE := 4
  const PARAMS_SIZE := 12

  function MaxStride(c: Config): nat {
    CeilDiv(c.maxModelLen, c.blockSize)
  }

  /** Just wide enough for a request of maximal length. */
  lemma StrideIsLeast(c: Config, n: nat)
    ensures c.maxModelLen <= Span(c.blockSize, n) <==> MaxStride(c) <= n
  {
    CeilDivBounds(c.maxModelLen, c.blockSize);
    if c.maxModelLen <= Span(c.blockSize, n) { CeilDivLeast(c.maxModelLen, c.blockSize, n); }
    if MaxStride(c) <= n { SpanGrows(c.blockSize, MaxStride(c), n); }
  }

  /** The fields with room for the largest batch. */
  ghost function Fields(c: Config, o: Offsets): seq<Region> {
    [Region(o.tokenIds, c.maxScheduledTokens * INT_SIZE),
     Region(o.positions, c.maxScheduledTokens * INT_SIZE),
     Region(o.slotMapping, c.maxScheduledTokens * INT_SIZE),
     Region(o.queryStartLoc, (c.maxSeqs + 1) * INT_SIZE),
     Region(o.seqLens, c.maxSeqs * INT_SIZE),
     Region(o.blockTable, c.maxSeqs * MaxStride(c) * INT_SIZE),
     Region(o.logitsIndices, c.maxSeqs * INT_SIZE),
     Region(o.sampleParams, c.maxSeqs * PARAMS_SIZE),
     Region(o.numTokens, INT_SIZE)]
  }

  /** The sizes of the fields in bytes, in the order in which they are reserved. */
  function Sizes(c: Config): (s: seq<nat>)
    ensures |s| == 9
  {
    var tokens, seqs := c.maxScheduledTokens * INT_SIZE, c.maxSeqs * INT_SIZE;
    [tokens, tokens, tokens, seqs + INT_SIZE, seqs, c.maxSeqs * MaxStride(c) * INT_SIZE,
     seqs, c.maxSeqs * PARAMS_SIZE, INT_SIZE]
  }

  /** What the fields take, with what alignment may waste. */
  function Needed(sizes: seq<nat>): nat {
    if sizes == [] then 0 else Needed(sizes[..|sizes| - 1]) + sizes[|sizes| - 1] + 31
  }

  lemma {:induction false} NeededGrows(sizes: seq<nat>, i: nat)
    requires i <= |sizes|
    ensures Needed(sizes[..i]) <= Needed(sizes)
  {
    if i == |sizes| {
      assert sizes[..i] == sizes;
    } else {
      NeededGrows(sizes[..|sizes| - 1], i);
      assert sizes[..|sizes| - 1][..i] == sizes[..i];
    }
  }

  /** Every field gets its own aligned stretch of the buffer, wide enough for any batch. */
  method CreateLayout(c: Config) returns (o: Offsets, bufferSize: nat)
    requires Needed(Sizes(c)) + 31 < BYTES
    ensures Apart(Fields(c, o), bufferSize) && bufferSize <= Needed(Sizes(c))
  {
    hide Apart, Needed;
    var sizes, offsets: seq<nat> := Sizes(c), [];
    ghost var rs: seq<Region> := [];
    NothingApart();
    bufferSize := 0;
    for i := 0 to |sizes|
      invariant |offsets| == |rs| == i && Apart(rs, bufferSize) && bufferSize <= Needed(sizes[..i])
      invariant forall j :: 0 <= j < i ==> rs[j] == Region(offsets[j], sizes[j])
    {
      NeededGrows(sizes, i);
      NeededNext(sizes, i);
      var offset;
      offset, bufferSize := Reserve(bufferSize, sizes[i], rs);
      offsets, rs := offsets + [offset], rs + [Region(offset, sizes[i])];
    }
    o := Offsets(offsets[0], offsets[1], offsets[2], offsets[3], offsets[4],
                 offsets[5], offsets[6], offsets[7], offsets[8]);
    assert sizes[..|sizes|] == sizes;
    assert rs == Fields(c, o);
  }

  lemma NeededNext(sizes: seq<nat>, i: nat)
    requires i < |sizes|
    ensures Needed(sizes[..i + 1]) == Needed(sizes[..i]) + sizes[i] + 31
  {
    assert sizes[..i + 1][..i] == sizes[..i];
  }

  lemma NothingApart()
    ensures Apart([], 0)
  {
  }

  // ---------------------------------------------------------------- what a packed batch is

  /** A batch that the buffer has room for. */
  ghost predicate Packable(c: Config, batch: seq<Scheduled>) {
    && |batch| <= c.maxSeqs && Total(batch) <= c.maxScheduledTokens
    && forall i :: 0 <= i < |batch| ==> EntryFits(c, batch[i])
  }

  ghost predicate EntryFits(c: Config, e: Scheduled) {
    e.tokens != [] && e.offset + |e.tokens| <= Span(c.blockSize, |e.blocks|) && |e.blocks| <= MaxStride(c)
  }

  function Positions(e: Scheduled): (r: seq<int>)
    ensures |r| == |e.tokens| && forall j :: 0 <= j < |r| ==> r[j] == e.offset + j
  {
    seq(|e.tokens|, j => e.offset + j)
  }

  /** The cache slots the tokens of e are written to. */
  function Slots(c: Config, e: Scheduled): (r: seq<int>)
    requires e.offset + |e.tokens| <= Span(c.blockSize, |e.blocks|)
    ensures |r| == |e.tokens| && forall j :: 0 <= j < |r| ==> r[j] == Slot(c, e.blocks, e.offset + j)
  {
    seq(|e.tokens|, j requires 0 <= j < |e.tokens| => Slot(c, e.blocks, e.offset + j))
  }

  function Filled(n: nat, x: int): (r: seq<int>)
    ensures |r| == n && forall j :: 0 <= j < n ==> r[j] == x
  {
    seq(n, _ => x)
  }

  function AsInts(blocks: seq<nat>): (r: seq<int>)
    ensures |r| == |blocks| && forall j :: 0 <= j < |r| ==> r[j] == blocks[j]
  {
    seq(|blocks|, j requires 0 <= j < |blocks| => blocks[j])
  }

  /** Row i of the block table: the request's blocks, filled up with zeros. */
  function TableRow(e: Scheduled, stride: nat): (r: seq<int>)
    requires |e.blocks| <= stride
    ensures |r| == stride
  {
    AsInts(e.blocks) + Filled(stride - |e.blocks|, 0)
  }

  /** The parts of the first i entries one after the other. */
  function FlatTokens(batch: seq<Scheduled>, i: nat): (r: seq<int>)
    requires i <= |batch|
    ensures |r| == Total(batch[..i])
  {
    if i == 0 then [] else TotalNext(batch, i - 1); FlatTokens(batch, i - 1) + batch[i - 1].tokens
  }

  function FlatPositions(batch: seq<Scheduled>, i: nat): (r: seq<int>)
    requires i <= |batch|
    ensures |r| == Total(batch[..i])
  {
    if i == 0 then [] else TotalNext(batch, i - 1); FlatPositions(batch, i - 1) + Positions(batch[i - 1])
  }

  function FlatSlots(c: Config, batch: seq<Scheduled>, i: nat): (r: seq<int>)
    requires i <= |batch| && forall k :: 0 <= k < |batch| ==> EntryFits(c, batch[k])
    ensures |r| == Total(batch[..i])
  {
    if i == 0 then [] else TotalNext(batch, i - 1); FlatSlots(c, batch, i - 1) + Slots(c, batch[i - 1])
  }

  function Starts(batch: seq<Scheduled>, i: nat): (r: seq<nat>)
    requires i <= |batch|
    ensures |r| == i + 1
  {
    if i == 0 then [0] else Starts(batch, i - 1) + [Total(batch[..i])]
  }

  function SeqLens(batch: seq<Scheduled>, i: nat): (r: seq<int>)
    requires i <= |batch|
    ensures |r| == i
  {
    if i == 0 then [] else SeqLens(batch, i - 1) + [batch[i - 1].offset + |batch[i - 1].tokens|]
  }

  /** For each sampling request the packed index of its last token, and its parameters. */
  function LastTokens(batch: seq<Scheduled>, i: nat): (r: seq<int>)
    requires i <= |batch|
    ensures |r| <= i
  {
    if i == 0 then []
    else LastTokens(batch, i - 1) + if batch[i - 1].needsSampling then [Total(batch[..i]) - 1] else []
  }

  function SamplingParams(batch: seq<Scheduled>, i: nat): (r: seq<SampleParams>)
    requires i <= |batch|
    ensures |r| == |LastTokens(batch, i)|
  {
    if i == 0 then []
    else SamplingParams(batch, i - 1) + if batch[i - 1].needsSampling then [batch[i - 1].params] else []
  }

  lemma TotalNext(batch: seq<Scheduled>, i: nat)
    requires i < |batch|
    ensures Total(batch[..i + 1]) == Total(batch[..i]) + |batch[i].tokens|
  {
    assert batch[..i + 1][..i] == batch[..i];
  }

  lemma {:induction false} TotalGrows(batch: seq<Scheduled>, i: nat)
    requires i <= |batch|
    ensures Total(batch[..i]) <= Total(batch)
    decreases |batch| - i
  {
    if i == |batch| {
      assert batch[..i] == batch;
    } else {
      TotalNext(batch, i);
      TotalGrows(batch, i + 1);
    }
  }

  lemma FlatNext(c: Config, batch: seq<Scheduled>, n: nat)
    requires n < |batch| && forall k :: 0 <= k < |batch| ==> EntryFits(c, batch[k])
    ensures FlatTokens(batch, n + 1) == FlatTokens(batch, n) + batch[n].tokens
    ensures FlatPositions(batch, n + 1) == FlatPositions(batch, n) + Positions(batch[n])
    ensures FlatSlots(c, batch, n + 1) == FlatSlots(c, batch, n) + Slots(c, batch[n])
  {
    hide Slots, Positions;
  }

  /** Token j of request i lies at packed index start + j, with its own position and slot. */
  lemma {:induction false} PackedAt(c: Config, batch: seq<Scheduled>, n: nat, i: nat, j: nat)
    requires i < n <= |batch| && j < |batch[i].tokens| && forall k :: 0 <= k < |batch| ==> EntryFits(c, batch[k])
    ensures var at := Total(batch[..i]) + j;
            && at < Total(batch[..n])
            && FlatTokens(batch, n)[at] == batch[i].tokens[j]
            && FlatPositions(batch, n)[at] == batch[i].offset + j
            && batch[i].offset + j < Span(c.blockSize, |batch[i].blocks|)
            && FlatSlots(c, batch, n)[at] == Slot(c, batch[i].blocks, batch[i].offset + j)
  {
    hide Slot, Total, FlatTokens, FlatPositions, FlatSlots;
    TotalNext(batch, n - 1);
    FlatNext(c, batch, n - 1);
    assert EntryFits(c, batch[i]);
    if i < n - 1 { PackedAt(c, batch, n - 1, i, j); }
  }

  lemma {:induction false} StartsAt(batch: seq<Scheduled>, n: nat, i: nat)
    requires i <= n <= |batch|
    ensures Starts(batch, n)[i] == Total(batch[..i])
    ensures i < n ==> SeqLens(batch, n)[i] == batch[i].offset + |batch[i].tokens|
  {
    if n == 0 {
      assert batch[..0] == [];
    } else if i < n {
      StartsAt(batch, n - 1, i);
    }
  }

  /** How many of the first i requests sample. */
  function NumSampling(batch: seq<Scheduled>, i: nat): nat
    requires i <= |batch|
  {
    if i == 0 then 0 else NumSampling(batch, i - 1) + if batch[i - 1].needsSampling then 1 else 0
  }

  /** The sampling request i is served at row NumSampling(batch, i), from its last token. */
  lemma {:induction false} SampledAt(batch: seq<Scheduled>, n: nat, i: nat)
    requires i < n <= |batch| && batch[i].needsSampling
    ensures |LastTokens(batch, n)| == NumSampling(batch, n) > NumSampling(batch, i)
    ensures LastTokens(batch, n)[NumSampling(batch, i)] == Total(batch[..i + 1]) - 1
    ensures SamplingParams(batch, n)[NumSampling(batch, i)] == batch[i].params
  {
    SamplingCount(batch, n - 1);
    SamplingCount(batch, n);
    if i < n - 1 { SampledAt(batch, n - 1, i); }
  }

  lemma {:induction false} SamplingCount(batch: seq<Scheduled>, n: nat)
    requires n <= |batch|
    ensures |LastTokens(batch, n)| == NumSampling(batch, n)
  {
    if n > 0 { SamplingCount(batch, n - 1); }
  }

  // ---------------------------------------------------------------- rows of a table

  /** Where row i starts in a table with the given stride. */
  function RowStart(stride: nat, i: nat): nat {
    if i == 0 then 0 else RowStart(stride, i - 1) + stride
  }

  lemma {:induction false} RowsGrow(stride: nat, wide: nat, i: nat, n: nat)
    requires stride <= wide && i <= n
    ensures RowStart(stride, i) <= RowStart(wide, i) <= RowStart(wide, n)
    ensures i < n ==> RowStart(stride, i) + stride <= RowStart(wide, n) && RowStart(wide, i) + wide <= RowStart(wide, n)
    decreases n
  {
    if i < n { RowsGrow(stride, wide, i, n - 1); }
    else if n > 0 { RowsGrow(stride, wide, n - 1, n - 1); }
  }

  lemma {:induction false} RowStartIs(stride: nat, i: nat)
    ensures RowStart(stride, i) == i * stride
  {
    if i > 0 { RowStartIs(stride, i - 1); }
  }

  /** Row i of the table in `cells` starts with the given row. */
  ghost predicate HasRow(cells: seq<int>, stride: nat, i: nat, row: seq<int>) {
    && RowStart(stride, i) + |row| <= |cells|
    && cells[RowStart(stride, i)..RowStart(stride, i) + |row|] == row
  }

  function WidestTable(batch: seq<Scheduled>, i: nat): (w: nat)
    requires i <= |batch|
    ensures forall k :: 0 <= k < i ==> |batch[k].blocks| <= w
  {
    if i == 0 then 0
    else
      var w := WidestTable(batch, i - 1);
      if w < |batch[i - 1].blocks| then |batch[i - 1].blocks| else w
  }

  lemma {:induction false} WidestFits(c: Config, batch: seq<Scheduled>, i: nat)
    requires i <= |batch| && forall k :: 0 <= k < |batch| ==> EntryFits(c, batch[k])
    ensures WidestTable(batch, i) <= MaxStride(c)
  {
    hide MaxStride;
    if i > 0 {
      WidestFits(c, batch, i - 1);
      assert EntryFits(c, batch[i - 1]);
    }
  }

  // ---------------------------------------------------------------- what reaches the device

  /** The most tokens that one of the first i requests computes, and its longest sequence. */
  function LongestQuery(batch: seq<Scheduled>, i: nat): (m: nat)
    requires i <= |batch|
    ensures forall k :: 0 <= k < i ==> |batch[k].tokens| <= m
    ensures i == 0 || exists k :: 0 <= k < i && |batch[k].tokens| == m
  {
    if i == 0 then 0 else Max(LongestQuery(batch, i - 1), |batch[i - 1].tokens|)
  }

  function LongestSeq(batch: seq<Scheduled>, i: nat): (m: nat)
    requires i <= |batch|
    ensures forall k :: 0 <= k < i ==> batch[k].offset + |batch[k].tokens| <= m
    ensures i == 0 || exists k :: 0 <= k < i && batch[k].offset + |batch[k].tokens| == m
  {
    if i == 0 then 0 else Max(LongestSeq(batch, i - 1), batch[i - 1].offset + |batch[i - 1].tokens|)
  }

  /** The device's fields as the kernels of a step find them. */
  datatype ForwardBatch = ForwardBatch(
    tokenIds: seq<int>,
    positions: seq<int>,
    slotMapping: seq<int>,
    queryStartLoc: seq<int>,
    seqLens: seq<int>,
    blockTable: seq<int>,
    logitsIndices: seq<int>,
    sampleParams: seq<SampleParams>,
    numTokensDevice: nat,
    blockTableStride: nat,
    numTokens: nat,
    numReqs: nat,
    numSamplingReqs: nat,
    maxQueryLen: nat,
    maxSeqLen: nat)

  /** Everything a step's kernels read, for a batch padded by `padding` tokens: the packed
      fields and the counts, and of the block table the rows of the batch. */
  ghost predicate Carries(c: Config, batch: seq<Scheduled>, padding: nat, b: ForwardBatch)
    requires Packable(c, batch)
  {
    var m := |batch|;
    && b.tokenIds == FlatTokens(batch, m) + Filled(padding, 0)
    && b.positions == FlatPositions(batch, m) + Filled(padding, 0)
    && b.slotMapping == FlatSlots(c, batch, m) + Filled(padding, -1)
    && b.queryStartLoc == Starts(batch, m) && b.seqLens == SeqLens(batch, m)
    && b.logitsIndices == LastTokens(batch, m) && b.sampleParams == SamplingParams(batch, m)
    && b.numTokensDevice == b.numTokens == Total(batch)
    && b.numReqs == m && b.numSamplingReqs == |LastTokens(batch, m)|
    && b.maxQueryLen == LongestQuery(batch, m) && b.maxSeqLen == LongestSeq(batch, m)
    && b.blockTableStride == MaxStride(c)
    && TableHasRows(b.blockTable, MaxStride(c), batch, m, WidestTable(batch, m))
  }

  /** The first i rows of a table hold the blocks of their requests, up to the width. */
  ghost predicate TableHasRows(cells: seq<int>, stride: nat, batch: seq<Scheduled>, i: nat, width: nat) {
    i <= |batch| && forall k :: 0 <= k < i ==>
      |batch[k].blocks| <= width && HasRow(cells, stride, k, TableRow(batch[k], width))
  }

  // ---------------------------------------------------------------- the buffer

  class BatchBuffer {
    const config: Config
    const offsets: Offsets
    const bufferSize: nat
    const tokenIds: array<int>
    const positions: array<int>
    const slotMapping: array<int>
    const queryStartLoc: array<int>
    const seqLens: array<int>
    const logitsIndices: array<int>
    const sampleParams: array<SampleParams>
    const blockTable: array<int>
    const deviceTable: array<int>

    var numTokens: nat
    var numSamplingReqs: nat
    var maxQueryLen: nat
    var maxSeqLen: nat

    /** The fields' sizes in bytes. */
    ghost function FieldSizes(): seq<nat> {
      [tokenIds.Length * INT_SIZE, positions.Length * INT_SIZE, slotMapping.Length * INT_SIZE,
       queryStartLoc.Length * INT_SIZE, seqLens.Length * INT_SIZE, blockTable.Length * INT_SIZE,
       logitsIndices.Length * INT_SIZE, sampleParams.Length * PARAMS_SIZE, INT_SIZE]
    }

    /** Each field fills a region of its own inside the buffer. */
    ghost predicate Laid() {
      Apart(Fields(config, offsets), bufferSize) && FieldSizes() == RegionSizes(Fields(config, offsets))
    }

    ghost predicate Valid() {
      && Laid()
      && tokenIds.Length == positions.Length == slotMapping.Length == config.maxScheduledTokens
      && queryStartLoc.Length == config.maxSeqs + 1
      && seqLens.Length == logitsIndices.Length == sampleParams.Length == config.maxSeqs
      && blockTable.Length == deviceTable.Length == RowStart(MaxStride(config), config.maxSeqs)
      && tokenIds != positions && tokenIds != slotMapping && positions != slotMapping
      && queryStartLoc !in {tokenIds, positions, slotMapping}
      && seqLens !in {tokenIds, positions, slotMapping, queryStartLoc}
      && logitsIndices !in {tokenIds, positions, slotMapping, queryStartLoc, seqLens}
      && blockTable !in {tokenIds, positions, slotMapping, queryStartLoc, seqLens, logitsIndices}
      && deviceTable !in {tokenIds, positions, slotMapping, queryStartLoc, seqLens, logitsIndices, blockTable}
    }

    constructor (c: Config)
      requires Needed(Sizes(c)) + 31 < BYTES
      ensures Valid() && config == c
    {
      hide Apart, MaxStride, Needed;
      config := c;
      var fields, size := CreateLayout(c);
      offsets, bufferSize := fields, size;
      RowStartIs(MaxStride(c), c.maxSeqs);
      tokenIds := new int[c.maxScheduledTokens];
      positions := new int[c.maxScheduledTokens];
      slotMapping := new int[c.maxScheduledTokens];
      queryStartLoc := new int[c.maxSeqs + 1];
      seqLens := new int[c.maxSeqs];
      logitsIndices := new int[c.maxSeqs];
      sampleParams := new SampleParams[c.maxSeqs](_ => SampleParams(1.0, 0, 1.0));
      blockTable := new int[RowStart(MaxStride(c), c.maxSeqs)];
      deviceTable := new int[RowStart(MaxStride(c), c.maxSeqs)];
      numTokens, numSamplingReqs, maxQueryLen, maxSeqLen := 0, 0, 0, 0;
    }

    /** Packs the tokens of one request behind those of the requests before it. */
    method PutTokens(e: Scheduled, start: nat)
      requires Valid() && EntryFits(config, e) && start + |e.tokens| <= config.maxScheduledTokens
      modifies tokenIds, positions, slotMapping
      ensures tokenIds[..start + |e.tokens|] == old(tokenIds[..start]) + e.tokens
      ensures positions[..start + |e.tokens|] == old(positions[..start]) + Positions(e)
      ensures slotMapping[..start + |e.tokens|] == old(slotMapping[..start]) + Slots(config, e)
    {
      hide Slot, MaxStride;
      for j := 0 to |e.tokens|
        invariant tokenIds[..start + j] == old(tokenIds[..start]) + e.tokens[..j]
        invariant positions[..start + j] == old(positions[..start]) + Positions(e)[..j]
        invariant slotMapping[..start + j] == old(slotMapping[..start]) + Slots(config, e)[..j]
      {
        var position := e.offset + j;
        SlotIsDivMod(config, e.blocks, position);
        var block := e.blocks[position / config.blockSize];
        tokenIds[start + j] := e.tokens[j];
        positions[start + j] := position;
        slotMapping[start + j] := block * config.blockSize + position % config.blockSize;
      }
    }

    /** Fills row i of the host's block table. */
    method PutTable(e: Scheduled, stride: nat, i: nat)
      requires Valid() && |e.blocks| <= stride <= MaxStride(config) && i < config.maxSeqs
      modifies blockTable
      ensures HasRow(blockTable[..], stride, i, TableRow(e, stride)) && RowStart(stride, i) <= blockTable.Length
      ensures blockTable[..RowStart(stride, i)] == old(blockTable[..RowStart(stride, i)])
    {
      hide MaxStride;
      RowsGrow(stride, MaxStride(config), i, config.maxSeqs);
      var at := RowStart(stride, i);
      ghost var row := TableRow(e, stride);
      for k := 0 to stride
        invariant blockTable[..at] == old(blockTable[..at])
        invariant forall m :: 0 <= m < k ==> blockTable[at + m] == row[m]
      {
        blockTable[at + k] := if k < |e.blocks| then e.blocks[k] else 0;
      }
    }

    /** The host's fields hold the tokens of the first i requests. */
    ghost predicate TokensPacked(batch: seq<Scheduled>, i: nat)
      requires Packable(config, batch)
      reads this`numTokens, tokenIds, positions, slotMapping
    {
      && i <= |batch| && numTokens == Total(batch[..i]) <= tokenIds.Length
      && numTokens <= positions.Length && numTokens <= slotMapping.Length
      && tokenIds[..numTokens] == FlatTokens(batch, i)
      && positions[..numTokens] == FlatPositions(batch, i)
      && slotMapping[..numTokens] == FlatSlots(config, batch, i)
    }

    /** They hold where each of these starts and how long it is. */
    ghost predicate CountsPacked(batch: seq<Scheduled>, i: nat)
      reads this`maxQueryLen, this`maxSeqLen, queryStartLoc, seqLens
    {
      && i <= |batch| && maxQueryLen == LongestQuery(batch, i) && maxSeqLen == LongestSeq(batch, i)
      && i < queryStartLoc.Length && queryStartLoc[..i + 1] == Starts(batch, i)
      && i <= seqLens.Length && seqLens[..i] == SeqLens(batch, i)
    }

    /** They hold what is to be sampled of them. */
    ghost predicate SamplesPacked(batch: seq<Scheduled>, i: nat)
      reads this`numSamplingReqs, logitsIndices, sampleParams
    {
      && i <= |batch| && numSamplingReqs == |LastTokens(batch, i)| <= logitsIndices.Length
      && numSamplingReqs <= sampleParams.Length
      && logitsIndices[..numSamplingReqs] == LastTokens(batch, i)
      && sampleParams[..numSamplingReqs] == SamplingParams(batch, i)
    }

    /** All of this, and their blocks. */
    ghost predicate PackedTo(batch: seq<Scheduled>, i: nat, stride: nat)
      requires Packable(config, batch)
      reads this, tokenIds, positions, slotMapping, queryStartLoc, seqLens, logitsIndices, sampleParams, blockTable
    {
      && TokensPacked(batch, i) && CountsPacked(batch, i) && SamplesPacked(batch, i)
      && TableHasRows(blockTable[..], stride, batch, i, stride)
    }

    method PackTokens(batch: seq<Scheduled>, i: nat)
      requires Valid() && Packable(config, batch) && i < |batch| && TokensPacked(batch, i)
      modifies this`numTokens, tokenIds, positions, slotMapping
      ensures TokensPacked(batch, i + 1)
    {
      hide MaxStride, Slots, Positions, Total, EntryFits, Laid;
      TotalNext(batch, i);
      TotalGrows(batch, i + 1);
      FitsAt(config, batch, i);
      PutTokens(batch[i], numTokens);
      numTokens := numTokens + |batch[i].tokens|;
    }

    method PackCounts(batch: seq<Scheduled>, i: nat)
      requires Valid() && i < |batch| <= config.maxSeqs && CountsPacked(batch, i) && numTokens == Total(batch[..i + 1])
      modifies this`maxQueryLen, this`maxSeqLen, queryStartLoc, seqLens
      ensures CountsPacked(batch, i + 1)
    {
      hide MaxStride, Total, Laid;
      queryStartLoc[i + 1] := numTokens;
      seqLens[i] := batch[i].offset + |batch[i].tokens|;
      maxQueryLen := Max(maxQueryLen, |batch[i].tokens|);
      maxSeqLen := Max(maxSeqLen, seqLens[i]);
      assert queryStartLoc[..i + 2] == old(queryStartLoc[..i + 1]) + [numTokens];
    }

    method PackSample(batch: seq<Scheduled>, i: nat)
      requires Valid() && i < |batch| <= config.maxSeqs && SamplesPacked(batch, i)
      requires numTokens == Total(batch[..i + 1])
      modifies this`numSamplingReqs, logitsIndices, sampleParams
      ensures SamplesPacked(batch, i + 1)
    {
      hide MaxStride, Total, Laid;
      if batch[i].needsSampling {
        logitsIndices[numSamplingReqs] := numTokens - 1;
        sampleParams[numSamplingReqs] := batch[i].params;
        numSamplingReqs := numSamplingReqs + 1;
      }
    }

    method PackTable(batch: seq<Scheduled>, i: nat, stride: nat)
      requires Valid() && i < |batch| <= config.maxSeqs && |batch[i].blocks| <= stride <= MaxStride(config)
      requires TableHasRows(blockTable[..], stride, batch, i, stride)
      modifies blockTable
      ensures TableHasRows(blockTable[..], stride, batch, i + 1, stride)
    {
      hide MaxStride, TableRow, HasRow, Laid;
      ghost var before := blockTable[..];
      PutTable(batch[i], stride, i);
      forall k | 0 <= k < i
        ensures HasRow(blockTable[..], stride, k, TableRow(batch[k], stride))
      {
        RowSize(batch[k], stride);
        RowKept(before, blockTable[..], stride, k, i, TableRow(batch[k], stride));
      }
    }

    /** One round of the packing loop. */
    method PutRequest(batch: seq<Scheduled>, i: nat, stride: nat)
      requires Valid() && Packable(config, batch) && i < |batch| && PackedTo(batch, i, stride)
      requires |batch[i].blocks| <= stride <= MaxStride(config)
      modifies this, tokenIds, positions, slotMapping, queryStartLoc, seqLens, logitsIndices, sampleParams, blockTable
      ensures PackedTo(batch, i + 1, stride)
    {
      hide MaxStride, TableHasRows, CountsPacked, SamplesPacked, Total, EntryFits, Laid;
      PackTokens(batch, i);
      PackCounts(batch, i);
      PackTable(batch, i, stride);
      PackSample(batch, i);
    }

    /** Positions from the batch's end to the padded size: no token, and no slot to write. */
    ghost predicate PaddedTo(n: nat)
      reads this, tokenIds, positions, slotMapping
    {
      && numTokens <= n <= tokenIds.Length && n <= positions.Length && n <= slotMapping.Length
      && forall k :: numTokens <= k < n ==> tokenIds[k] == 0 && positions[k] == 0 && slotMapping[k] == -1
    }

    method Pad(n: nat, ghost batch: seq<Scheduled>, ghost stride: nat)
      requires Valid() && Packable(config, batch) && PackedTo(batch, |batch|, stride)
      requires numTokens <= n <= config.maxScheduledTokens
      modifies tokenIds, positions, slotMapping
      ensures PackedTo(batch, |batch|, stride) && PaddedTo(n)
    {
      hide TableHasRows, CountsPacked, SamplesPacked, FlatTokens, FlatPositions, FlatSlots, Total, Packable, Laid;
      for k := numTokens to n
        invariant tokenIds[..numTokens] == old(tokenIds[..numTokens])
        invariant positions[..numTokens] == old(positions[..numTokens])
        invariant slotMapping[..numTokens] == old(slotMapping[..numTokens])
        invariant forall m :: numTokens <= m < k ==> tokenIds[m] == 0 && positions[m] == 0 && slotMapping[m] == -1
      {
        tokenIds[k], positions[k], slotMapping[k] := 0, 0, -1;
      }
    }

    /** Copies one row of the host's table to its place in the device's, whose stride is larger. */
    method CopyRow(stride: nat, i: nat, ghost row: seq<int>)
      requires Valid() && stride <= MaxStride(config) && i < config.maxSeqs
      requires |row| == stride && HasRow(blockTable[..], stride, i, row)
      modifies deviceTable
      ensures HasRow(deviceTable[..], MaxStride(config), i, row)
      ensures RowStart(MaxStride(config), i) <= deviceTable.Length
      ensures deviceTable[..RowStart(MaxStride(config), i)] == old(deviceTable[..RowStart(MaxStride(config), i)])
    {
      hide MaxStride;
      RowsGrow(stride, MaxStride(config), i, config.maxSeqs);
      RowsGrow(MaxStride(config), MaxStride(config), i, config.maxSeqs);
      var from, to := RowStart(stride, i), RowStart(MaxStride(config), i);
      for k := 0 to stride
        invariant deviceTable[..to] == old(deviceTable[..to])
        invariant forall m :: 0 <= m < k ==> deviceTable[to + m] == row[m]
      {
        assert blockTable[..][from..from + stride][k] == row[k];
        deviceTable[to + k] := blockTable[from + k];
      }
    }

    method CopyTable(stride: nat, batch: seq<Scheduled>)
      requires Valid() && Packable(config, batch) && PackedTo(batch, |batch|, stride) && stride <= MaxStride(config)
      modifies deviceTable
      ensures TableHasRows(deviceTable[..], MaxStride(config), batch, |batch|, stride)
    {
      hide HasRow, TableRow, MaxStride, TokensPacked, CountsPacked, SamplesPacked, Laid;
      for i := 0 to |batch|
        invariant TableHasRows(deviceTable[..], MaxStride(config), batch, i, stride)
      {
        ghost var before := deviceTable[..];
        RowSize(batch[i], stride);
        CopyRow(stride, i, TableRow(batch[i], stride));
        forall k | 0 <= k < i
          ensures HasRow(deviceTable[..], MaxStride(config), k, TableRow(batch[k], stride))
        {
          RowSize(batch[k], stride);
          RowKept(before, deviceTable[..], MaxStride(config), k, i, TableRow(batch[k], stride));
        }
      }
    }

    /** Packs a batch, pads it, and copies the used part of each field to the device. */
    method Upload(batch: seq<Scheduled>, paddedNumTokens: nat) returns (b: ForwardBatch)
      requires Valid() && Packable(config, batch)
      requires paddedNumTokens == 0 || Total(batch) <= paddedNumTokens <= config.maxScheduledTokens
      modifies this, tokenIds, positions, slotMapping, queryStartLoc, seqLens, logitsIndices, sampleParams,
               blockTable, deviceTable
      ensures Carries(config, batch, if paddedNumTokens == 0 then 0 else paddedNumTokens - Total(batch), b)
    {
      hide HasRow, TableRow, MaxStride, EntryFits, PackedTo, PaddedTo, TableHasRows, Carries, Laid;
      WidestFits(config, batch, |batch|);
      var stride := 0;
      for i := 0 to |batch|
        modifies {}
        invariant stride == WidestTable(batch, i)
      {
        if stride < |batch[i].blocks| {
          stride := |batch[i].blocks|;
        }
      }
      PackAll(batch, stride);
      var n := if paddedNumTokens == 0 then numTokens else paddedNumTokens;
      Pad(n, batch, stride);
      CopyTable(stride, batch);
      UsedCarries(batch, n, deviceTable[..]);
      b := ForwardBatch(
        tokenIds[..n], positions[..n], slotMapping[..n], queryStartLoc[..|batch| + 1], seqLens[..|batch|],
        deviceTable[..], logitsIndices[..numSamplingReqs], sampleParams[..numSamplingReqs], numTokens,
        MaxStride(config), numTokens, |batch|, numSamplingReqs, maxQueryLen, maxSeqLen);
      assert b == Used(|batch|, n, deviceTable[..]);
    }

    /** The tokens as the kernels find them: the packed ones, then the padding. */
    lemma PaddedTokens(batch: seq<Scheduled>, n: nat)
      requires Packable(config, batch) && TokensPacked(batch, |batch|) && PaddedTo(n)
      ensures numTokens == Total(batch) <= n
      ensures n <= tokenIds.Length && tokenIds[..n] == FlatTokens(batch, |batch|) + Filled(n - numTokens, 0)
      ensures n <= positions.Length && positions[..n] == FlatPositions(batch, |batch|) + Filled(n - numTokens, 0)
      ensures n <= slotMapping.Length
      ensures slotMapping[..n] == FlatSlots(config, batch, |batch|) + Filled(n - numTokens, -1)
    {
      hide Total, FlatTokens, FlatPositions, FlatSlots, Packable, Filled;
      assert batch[..|batch|] == batch;
      FillTo(tokenIds, numTokens, n, 0);
      FillTo(positions, numTokens, n, 0);
      FillTo(slotMapping, numTokens, n, -1);
    }

    /** The used parts of the packed and padded fields. */
    ghost function Used(reqs: nat, n: nat, table: seq<int>): ForwardBatch
      requires n <= tokenIds.Length && n <= positions.Length && n <= slotMapping.Length
      requires reqs + 1 <= queryStartLoc.Length && reqs <= seqLens.Length
      requires numSamplingReqs <= logitsIndices.Length && numSamplingReqs <= sampleParams.Length
      reads this, tokenIds, positions, slotMapping, queryStartLoc, seqLens, logitsIndices, sampleParams
    {
      ForwardBatch(
        tokenIds[..n], positions[..n], slotMapping[..n], queryStartLoc[..reqs + 1], seqLens[..reqs],
        table, logitsIndices[..numSamplingReqs], sampleParams[..numSamplingReqs], numTokens,
        MaxStride(config), numTokens, reqs, numSamplingReqs, maxQueryLen, maxSeqLen)
    }

    lemma UsedCarries(batch: seq<Scheduled>, n: nat, table: seq<int>)
      requires Valid() && Packable(config, batch)
      requires PackedTo(batch, |batch|, WidestTable(batch, |batch|)) && PaddedTo(n)
      requires TableHasRows(table, MaxStride(config), batch, |batch|, WidestTable(batch, |batch|))
      ensures n <= tokenIds.Length && n <= positions.Length && n <= slotMapping.Length
      ensures |batch| + 1 <= queryStartLoc.Length && |batch| <= seqLens.Length
      ensures numSamplingReqs <= logitsIndices.Length && numSamplingReqs <= sampleParams.Length
      ensures numTokens == Total(batch) <= n && Carries(config, batch, n - Total(batch), Used(|batch|, n, table))
    {
      hide Valid, TableHasRows, Total, FlatTokens, FlatPositions, FlatSlots, Starts, SeqLens, LastTokens,
           SamplingParams, MaxStride, WidestTable, LongestQuery, LongestSeq, Packable, TokensPacked, Filled, PaddedTo;
      PaddedTokens(batch, n);
    }

    /** The packing loop. */
    method PackAll(batch: seq<Scheduled>, stride: nat)
      requires Valid() && Packable(config, batch) && WidestTable(batch, |batch|) <= stride <= MaxStride(config)
      modifies this, tokenIds, positions, slotMapping, queryStartLoc, seqLens, logitsIndices, sampleParams, blockTable
      ensures PackedTo(batch, |batch|, stride) && numTokens == Total(batch)
    {
      hide MaxStride, EntryFits, PackedTo, Laid, Total;
      numTokens, numSamplingReqs, maxQueryLen, maxSeqLen := 0, 0, 0, 0;
      queryStartLoc[0] := 0;
      PackedNothing(batch, stride);
      for i := 0 to |batch|
        invariant PackedTo(batch, i, stride)
      {
        PutRequest(batch, i, stride);
      }
      PackedAll(batch, stride);
    }

    lemma PackedNothing(batch: seq<Scheduled>, stride: nat)
      requires Valid() && Packable(config, batch) && queryStartLoc[0] == 0
      requires numTokens == numSamplingReqs == maxQueryLen == maxSeqLen == 0
      ensures PackedTo(batch, 0, stride)
    {
      hide Laid, MaxStride;
      assert batch[..0] == [];
    }

    lemma PackedAll(batch: seq<Scheduled>, stride: nat)
      requires Packable(config, batch) && PackedTo(batch, |batch|, stride)
      ensures numTokens == Total(batch)
    {
      assert batch[..|batch|] == batch;
    }
  }

  lemma FillTo(cells: array<int>, n: nat, m: nat, x: int)
    requires n <= m <= cells.Length && forall k :: n <= k < m ==> cells[k] == x
    ensures cells[..m] == cells[..n] + Filled(m - n, x)
  {
  }

  ghost function RegionSizes(rs: seq<Region>): (s: seq<nat>)
    ensures |s| == |rs| && forall i :: 0 <= i < |s| ==> s[i] == rs[i].size
  {
    seq(|rs|, i requires 0 <= i < |rs| => rs[i].size)
  }

  lemma RowSize(e: Scheduled, stride: nat)
    requires |e.blocks| <= stride
    ensures |TableRow(e, stride)| == stride
  {
  }

  lemma FitsAt(c: Config, batch: seq<Scheduled>, i: nat)
    requires Packable(c, batch) && i < |batch|
    ensures EntryFits(c, batch[i]) && batch[i].tokens != []
  {
  }

  lemma SameSlice<T>(s: seq<T>, s': seq<T>, n: nat, a: nat, b: nat)
    requires a <= b <= n <= |s| && n <= |s'| && s'[..n] == s[..n]
    ensures s'[a..b] == s[a..b]
  {
    forall i | a <= i < b
      ensures s'[i] == s[i]
    {
      assert s'[i] == s'[..n][i] && s[i] == s[..n][i];
    }
  }

  lemma RowKept(cells: seq<int>, cells': seq<int>, stride: nat, k: nat, i: nat, row: seq<int>)
    requires HasRow(cells, stride, k, row) && |row| <= stride && k < i && |cells| == |cells'|
    requires RowStart(stride, i) <= |cells| && cells'[..RowStart(stride, i)] == cells[..RowStart(stride, i)]
    ensures HasRow(cells', stride, k, row)
  {
    RowsGrow(stride, stride, k, i);
    var a, b, n := RowStart(stride, k), RowStart(stride, k) + |row|, RowStart(stride, i);
    SameSlice(cells, cells', n, a, b);
  }

  lemma SlotIsDivMod(c: Config, t: seq<nat>, p: nat)
    requires p < Span(c.blockSize, |t|)
    ensures 0 <= p / c.blockSize < |t| && Slot(c, t, p) == t[p / c.blockSize] * c.blockSize + p % c.blockSize
  {
    DivBelow(p, c.blockSize, |t|);
  }
}
