/** The engine loop: whole runs of arrivals, aborts and steps, with what the frontend hears. */
module EngineModel {
  import opened Types
  import opened CachePool
  import opened PoolInvariant
  import opened Decoder
  import opened SchedulerModel
  import opened ScheduleStep
  import opened Executor
  import opened Lifecycle
  import opened UpdateStep

  /** `log` is everything sent to the frontend, `added` every request ever accepted and
      `aborted` those removed by an abort while they were live. */
  datatype Engine = Engine(s: State, kv: seq<KV>, log: seq<Output>, added: map<Id, Request>, aborted: set<Id>)

  datatype Event = Add(a: Arrival) | Abort(id: Id) | Step

  // ---------------------------------------------------------------- sampled tokens

  ghost predicate DistinctIds(batch: seq<Scheduled>) {
    forall i, j :: 0 <= i < j < |batch| ==> batch[i].id != batch[j].id
  }

  ghost predicate SampleOf(c: Config, w: World, kv: seq<KV>, batch: seq<Scheduled>, x: Sampled, i: int) {
    0 <= i < |batch| && batch[i].needsSampling && Addressable(c, kv, batch[i]) && x == SampleOne(c, w, kv, batch[i])
  }

  ghost predicate From(c: Config, w: World, kv: seq<KV>, batch: seq<Scheduled>, x: Sampled) {
    exists i :: SampleOf(c, w, kv, batch, x, i)
  }

  ghost predicate AllFrom(c: Config, w: World, kv: seq<KV>, batch: seq<Scheduled>, xs: seq<Sampled>) {
    forall k :: 0 <= k < |xs| ==> From(c, w, kv, batch, xs[k])
  }

  lemma {:induction false} SampledFrom(c: Config, w: World, kv: seq<KV>, batch: seq<Scheduled>)
    requires AllAddressable(c, kv, batch)
    ensures AllFrom(c, w, kv, batch, SampleAll(c, w, kv, batch))
  {
    hide SampleOne, Addressable;
    if batch != [] {
      var rest := batch[1..];
      SampledFrom(c, w, kv, rest);
      var xs, ys := SampleAll(c, w, kv, batch), SampleAll(c, w, kv, rest);
      forall k | 0 <= k < |xs|
        ensures From(c, w, kv, batch, xs[k])
      {
        if batch[0].needsSampling && k == 0 {
          assert SampleOf(c, w, kv, batch, xs[k], 0);
        } else {
          var l := if batch[0].needsSampling then k - 1 else k;
          assert xs[k] == ys[l];
          assert From(c, w, kv, rest, ys[l]);
          var i :| SampleOf(c, w, kv, rest, ys[l], i);
          assert SampleOf(c, w, kv, batch, xs[k], i + 1);
        }
      }
    }
  }

  lemma {:induction false} SampledFor(c: Config, w: World, kv: seq<KV>, batch: seq<Scheduled>)
    requires AllAddressable(c, kv, batch)
    ensures forall i :: 0 <= i < |batch| && batch[i].needsSampling ==> Pending(SampleAll(c, w, kv, batch), batch[i].id)
  {
    hide SampleOne, Addressable;
    if batch != [] {
      var rest := batch[1..];
      SampledFor(c, w, kv, rest);
      SampleId(c, w, kv, batch[0]);
      var xs, ys := SampleAll(c, w, kv, batch), SampleAll(c, w, kv, rest);
      forall i | 0 <= i < |batch| && batch[i].needsSampling
        ensures Pending(xs, batch[i].id)
      {
        if i == 0 { assert xs[0].id == batch[0].id; }
        else {
          assert batch[i] == rest[i - 1];
          var k :| 0 <= k < |ys| && ys[k].id == batch[i].id;
          assert xs[if batch[0].needsSampling then k + 1 else k].id == batch[i].id;
        }
      }
    }
  }

  lemma {:induction false} SampledDistinct(c: Config, w: World, kv: seq<KV>, batch: seq<Scheduled>)
    requires AllAddressable(c, kv, batch) && DistinctIds(batch)
    ensures var xs := SampleAll(c, w, kv, batch);
            forall k, l :: 0 <= k < l < |xs| ==> xs[k].id != xs[l].id
  {
    hide SampleOne;
    if batch != [] {
      var rest := batch[1..];
      assert DistinctIds(rest);
      SampleId(c, w, kv, batch[0]);
      SampledDistinct(c, w, kv, rest);
      SampledFrom(c, w, kv, rest);
      var ys := SampleAll(c, w, kv, rest);
      forall k | 0 <= k < |ys|
        ensures ys[k].id != batch[0].id
      {
        assert From(c, w, kv, rest, ys[k]);
        var i :| SampleOf(c, w, kv, rest, ys[k], i);
        SampleId(c, w, kv, rest[i]);
        assert batch[i + 1] == rest[i];
      }
    }
  }

  lemma BatchIds(c: Config, s: State, batch: seq<Scheduled>)
    requires Inv(c, s, batch)
    ensures |batch| <= |s.running| && DistinctIds(batch)
    ensures forall i :: 0 <= i < |batch| ==> batch[i].id == s.running[i].id
  {
    hide PoolOk, RunningOk, Order;
    forall i, j | 0 <= i < j < |batch|
      ensures batch[i].id != batch[j].id
    {
      RunningDistinct(s, i, j);
    }
  }

  lemma BaseLater(c: Config, s: State, dones: seq<nat>)
    requires Base(c, s, dones)
    ensures Base(c, s, Computed(s))
  {
    hide PoolOk, TableOk;
    forall i | 0 <= i < |s.running|
      ensures RunningOk(c, s.pool, s.running[i], Computed(s)[i])
    {
      var r := s.running[i];
      assert RunningOk(c, s.pool, r, dones[i]);
      TableOkLater(c, s.pool.store, Table(s.pool, r.id), r.tokens, dones[i], r.tokens, r.numComputed);
    }
  }

  /** Every request whose tokens are all computed gets exactly one sampled token. */
  lemma StepDelivers(c: Config, w: World, s: State, kv: seq<KV>, batch: seq<Scheduled>)
    requires Inv(c, s, batch) && AllAddressable(c, kv, batch)
    ensures var xs := SampleAll(c, w, kv, batch); Delivering(c, s, xs) && Deliverable(s, xs)
  {
    hide Base, AllAddressable, SampleAll, SampleOne;
    var xs := SampleAll(c, w, kv, batch);
    BatchIds(c, s, batch);
    SampledFrom(c, w, kv, batch);
    SampledFor(c, w, kv, batch);
    SampledDistinct(c, w, kv, batch);
    BaseLater(c, s, Dones(s, batch));
    forall k | 0 <= k < |xs|
      ensures FedId(batch, xs[k].id) && HasId(s.running, xs[k].id)
    {
      assert From(c, w, kv, batch, xs[k]);
      var i :| SampleOf(c, w, kv, batch, xs[k], i);
      SampleId(c, w, kv, batch[i]);
      assert s.running[i].id == xs[k].id;
    }
    forall i | 0 <= i < |s.running|
      ensures if Pending(xs, s.running[i].id) then s.running[i].numComputed
                == |s.running[i].tokens| else Ready(s.running[i])
    {
      PendingMeansDone(c, s, batch, xs, i);
    }
  }

  ghost predicate FedId(batch: seq<Scheduled>, id: Id) {
    exists i :: 0 <= i < |batch| && batch[i].needsSampling && batch[i].id == id
  }

  lemma SampleId(c: Config, w: World, kv: seq<KV>, e: Scheduled)
    requires Addressable(c, kv, e)
    ensures SampleOne(c, w, kv, e).id == e.id
  {
  }

  lemma PendingMeansDone(c: Config, s: State, batch: seq<Scheduled>, xs: seq<Sampled>, i: nat)
    requires Inv(c, s, batch) && i < |s.running|
    requires forall k :: 0 <= k < |xs| ==> FedId(batch, xs[k].id)
    requires forall j :: 0 <= j < |batch| && batch[j].needsSampling ==> Pending(xs, batch[j].id)
    ensures if Pending(xs, s.running[i].id) then s.running[i].numComputed
              == |s.running[i].tokens| else Ready(s.running[i])
  {
    hide PoolOk, RunningOk, Order;
    BatchIds(c, s, batch);
    if i < |batch| { assert EntryOk(s.pool, s.running[i], batch[i]) && Fed(s.running[i]); }
    if Pending(xs, s.running[i].id) {
      var k :| 0 <= k < |xs| && xs[k].id == s.running[i].id;
      var j :| 0 <= j < |batch| && batch[j].needsSampling && batch[j].id == xs[k].id;
      if i != j { RunningDistinct(s, i, j); }
    } else if i >= |batch| {
      assert Ready(s.running[i]);
    }
  }
}
