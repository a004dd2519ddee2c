/** The model runner as it is implemented: the cache pool is an array that a step writes slot
    by slot, and the sampled tokens wait in `inflight` until they are collected. */
module ModelRunner {
  import opened Types
  import opened Arith
  import opened Decoder
  import opened StepTheorems
  import opened Executor

  /** A sampled token before its value has arrived. */
  function Placeholder(id: Id): Sampled {
    Sampled(id, -1, false)
  }

  /** `ids` waits for exactly the tokens xs, which are the first ones in `tokens`. */
  ghost predicate Awaits(w: World, inflight: seq<Sampled>, tokens: seq<Token>, xs: seq<Sampled>) {
    && |inflight| == |xs| <= |tokens|
    && forall i :: 0 <= i < |xs| ==>
         && inflight[i] == Placeholder(xs[i].id) && tokens[i] == xs[i].token
         && xs[i].eos == w.isEos(xs[i].token)
  }

  /** The requests of a batch that sample, in batch order. */
  lemma SampleStep(c: Config, w: World, kv: seq<KV>, batch: seq<Scheduled>, i: nat)
    requires AllAddressable(c, kv, batch) && i < |batch|
    ensures AllAddressable(c, kv, batch[i..]) && AllAddressable(c, kv, batch[i + 1..]) && Addressable(c, kv, batch[i])
    ensures SampleOne(c, w, kv, batch[i]).id == batch[i].id
    ensures SampleOne(c, w, kv, batch[i]).eos == w.isEos(SampleOne(c, w, kv, batch[i]).token)
    ensures SampleAll(c, w, kv, batch[i..]) ==
              (if batch[i].needsSampling then [SampleOne(c, w, kv, batch[i])]
                  else []) + SampleAll(c, w, kv, batch[i + 1..])
  {
    hide Addressable;
    var rest := batch[i + 1..];
    assert batch[i..][1..] == rest && batch[i..][0] == batch[i];
    assert forall j :: 0 <= j < |rest| ==> rest[j] == batch[i + 1 + j];
  }

  lemma SameSize(c: Config, kv: seq<KV>, kv': seq<KV>, batch: seq<Scheduled>)
    requires AllAddressable(c, kv, batch) && |kv'| == |kv|
    ensures AllAddressable(c, kv', batch)
  {
  }

  class ModelRunner {
    const config: Config
    const world: World
    const kv: array<KV>

    var sampledTokenIds: seq<Token>
    var inflight: seq<Sampled>

    constructor (c: Config, w: World)
      ensures config == c && world == w && inflight == [] && fresh(kv)
      ensures kv[..] == seq(Span(c.blockSize, c.numBlocks), _ => Blank)
    {
      config, world := c, w;
      kv := new KV[Span(c.blockSize, c.numBlocks)](_ => Blank);
      sampledTokenIds, inflight := [], [];
    }

    /** Computes one token: its context is read and its entry written through the table. */
    method WriteToken(e: Scheduled, p: nat)
      requires Addressable(config, kv[..], e) && Writes(e, p)
      modifies kv
      ensures kv[..] == WriteOne(config, old(kv[..]), e, p)
    {
      SlotInPool(config, kv[..], e.blocks, p);
      kv[Slot(config, e.blocks, p)] := Entry(Read(config, kv[..], e.blocks, p), e.tokens[p - e.offset]);
    }

    method ForwardEntry(e: Scheduled)
      requires Addressable(config, kv[..], e)
      modifies kv
      ensures kv[..] == Forward(config, old(kv[..]), e, e.offset)
    {
      hide WriteOne;
      for p := e.offset to e.offset + |e.tokens|
        invariant Forward(config, kv[..], e, p) == Forward(config, old(kv[..]), e, e.offset)
      {
        WriteToken(e, p);
      }
    }

    method ForwardBatch(batch: seq<Scheduled>)
      requires AllAddressable(config, kv[..], batch)
      modifies kv
      ensures kv[..] == ForwardAll(config, old(kv[..]), batch, 0)
    {
      hide Forward;
      for i := 0 to |batch|
        invariant AllAddressable(config, kv[..], batch)
        invariant ForwardAll(config, kv[..], batch, i) == ForwardAll(config, old(kv[..]), batch, 0)
      {
        ForwardEntry(batch[i]);
      }
    }

    /** Leaves the sampled tokens in the download buffer and their requests in flight.  An
        empty batch touches nothing, not even the tokens of the step before. */
    method RunModel(scheduled: seq<Scheduled>)
      requires AllAddressable(config, kv[..], scheduled) && inflight == []
      modifies this, kv
      ensures kv[..] == ForwardAll(config, old(kv[..]), scheduled, 0) && AllAddressable(config, kv[..], scheduled)
      ensures Awaits(world, inflight, sampledTokenIds, SampleAll(config, world, kv[..], scheduled))
      ensures scheduled == [] ==> sampledTokenIds == old(sampledTokenIds)
    {
      hide Addressable, AllAddressable, ForwardAll, SampleAll, Awaits;
      if scheduled == [] {
        EmptyBatch();
        return;
      }
      ForwardBatch(scheduled);
      SameSize(config, old(kv[..]), kv[..], scheduled);
      sampledTokenIds, inflight := Sample(scheduled);
    }

    /** Samples one token for each request that needs one. */
    method Sample(scheduled: seq<Scheduled>) returns (tokens: seq<Token>, waiting: seq<Sampled>)
      requires AllAddressable(config, kv[..], scheduled)
      ensures Awaits(world, waiting, tokens, SampleAll(config, world, kv[..], scheduled))
    {
      hide Addressable, AllAddressable, SampleAll, SampleOne;
      tokens, waiting := [], [];
      ghost var pool, xs: seq<Sampled>, all := kv[..], [], SampleAll(config, world, kv[..], scheduled);
      assert scheduled[0..] == scheduled && [] + all == all;
      for i := 0 to |scheduled|
        modifies {}
        invariant AllAddressable(config, pool, scheduled[i..])
        invariant xs + SampleAll(config, world, pool, scheduled[i..]) == all
        invariant |tokens| == |xs| && Awaits(world, waiting, tokens, xs)
      {
        SampleStep(config, world, pool, scheduled, i);
        ghost var rest := SampleAll(config, world, pool, scheduled[i + 1..]);
        if scheduled[i].needsSampling {
          var x := SampleOne(config, world, kv[..], scheduled[i]);
          tokens, waiting := tokens + [x.token], waiting + [Placeholder(scheduled[i].id)];
          assert (xs + [x]) + rest == xs + ([x] + rest);
          xs := xs + [x];
        } else {
          assert [] + rest == rest;
        }
      }
      EmptySample(pool);
      assert scheduled[|scheduled|..] == [] && xs + [] == xs;
    }

    lemma EmptySample(pool: seq<KV>)
      ensures AllAddressable(config, pool, []) && SampleAll(config, world, pool, []) == []
    {
    }

    lemma EmptyBatch()
      ensures AllAddressable(config, kv[..], []) && ForwardAll(config, kv[..], [], 0) == kv[..]
      ensures SampleAll(config, world, kv[..], []) == [] && Awaits(world, [], sampledTokenIds, [])
    {
    }

    /** Collects the sampled tokens, one for each request in flight, in batch order. */
    method Finish(ghost xs: seq<Sampled>) returns (sampled: seq<Sampled>)
      requires Awaits(world, inflight, sampledTokenIds, xs)
      modifies this
      ensures sampled == xs && inflight == []
    {
      ghost var ids := inflight;
      for i := 0 to |inflight|
        invariant |inflight| == |ids| == |xs| <= |sampledTokenIds| && sampledTokenIds == old(sampledTokenIds)
        invariant inflight[..i] == xs[..i] && inflight[i..] == ids[i..]
      {
        var token := sampledTokenIds[i];
        assert inflight[i] == inflight[i..][0] == ids[i];
        inflight := inflight[i := inflight[i].(token := token, eos := world.isEos(token))];
        assert inflight[i] == xs[i];
      }
      sampled := inflight;
      inflight := [];
    }
  }
}
