/** Randomness.  No request is sampled twice at one length, so a run whose tokens are drawn
    afresh in every step is the run of one fixed sampler, and what holds for every `World`
    holds for all draws. */
module Draws {
  import opened Types
  import opened CachePool
  import opened PoolContent
  import opened Decoder
  import opened SchedulerModel
  import opened ScheduleStep
  import opened Executor
  import opened Lifecycle
  import opened UpdateStep
  import opened EngineModel
  import opened History
  import opened EngineRuns
  import opened Promises
  import opened Protocol
  import opened Guarantees

  /** A run in which event i happens under the draws of worlds[i]. */
  function RunDrawing(c: Config, worlds: seq<World>, g: Engine, events: seq<Event>): (g': Engine)
    requires RunOk(c, g, events) && |worlds| == |events|
    ensures Good(c, g')
    decreases |events|
  {
    if events == [] then g
    else
      RunRest(c, worlds[0], g, events);
      RunDrawing(c, worlds[1..], Apply(c, worlds[0], g, events[0]), events[1..])
  }

  // ---------------------------------------------------------------- lengths only grow

  ghost predicate AtLeast(order: seq<Request>, id: Id, n: nat) {
    forall i :: 0 <= i < |order| && order[i].id == id ==> n <= |order[i].tokens|
  }

  /** No request with this id is left to be sampled after n tokens. */
  ghost predicate Past(g: Engine, id: Id, n: nat) {
    id in g.added && AtLeast(Order(g.s), id, n + 1)
  }

  lemma OutputGrows(order: seq<Request>, i: nat, out: Output, id: Id, n: nat)
    requires AtLeast(order, id, n) && NoDup(order) && i < |order|
    ensures AtLeast(AfterOutput(order, i, out), id, n + if order[i].id == id then 1 else 0)
  {
    var order' := AfterOutput(order, i, out);
    forall j | 0 <= j < |order'| && order'[j].id == id
      ensures n + (if order[i].id == id then 1 else 0) <= |order'[j].tokens|
    {
      var k := if out.reason == GoOn || j < i then j else j + 1;
      assert k != i ==> order'[j] == order[k] && order[k].id != order[i].id;
    }
  }

  lemma {:induction false} UpdateGrows(c: Config, s: State, rest: seq<Sampled>, id: Id, n: nat)
    requires Delivering(c, s, rest) && Deliverable(s, rest) && AtLeast(Order(s), id, n)
    ensures AtLeast(Order(Update(c, s, rest).0), id, n + if Pending(rest, id) then 1 else 0)
    decreases |rest|
  {
    hide Delivering, AtLeast, Releasable, Order, Deliver, AfterOutput;
    if rest != [] {
      var i := FirstRunning(s, rest);
      DeliverKeeps(c, s, rest, i);
      DeliverOrder(c, s, i, rest[0]);
      DeliveringNoDup(c, s, rest);
      var (s', out) := Deliver(c, s, i, rest[0]);
      OutputGrows(Order(s), i, out, id, n);
      assert Order(s)[i].id == rest[0].id;
      if rest[0].id == id {
        assert !Pending(rest[1..], id);
        UpdateGrows(c, s', rest[1..], id, n + 1);
      } else {
        PendingRest(rest, id);
        UpdateGrows(c, s', rest[1..], id, n);
      }
    }
  }

  lemma PastStays(c: Config, w: World, g: Engine, e: Event, id: Id, n: nat)
    requires Good(c, g) && EventOk(c, g, e) && Past(g, id, n)
    ensures Past(Apply(c, w, g, e), id, n)
  {
    hide Good, Inv, Order, Delivering, Deliverable, AllAddressable, Schedule, ForwardAll, SampleAll, Update,
         Removable, Remove, Pending;
    match e {
      case Add(a) => AddOrder(g.s, a);
      case Abort(id') =>
        GoodInv(c, g);
        RemoveKeepsInv(c, g.s, id');
        InvNoDup(c, g.s, []);
        RemoveOrder(c, g.s, id');
      case Step =>
        var s, batch, kv, xs := StepIsUpdate(c, w, g);
        UpdateGrows(c, s, xs, id, n + 1);
        MoreIsEnough(Order(StepEngine(c, w, g).s), id, n + 1, n + 1 + if Pending(xs, id) then 1 else 0);
    }
  }

  lemma MoreIsEnough(order: seq<Request>, id: Id, n: nat, m: nat)
    requires AtLeast(order, id, m) && n <= m
    ensures AtLeast(order, id, n)
  {
  }

  // ---------------------------------------------------------------- what a step samples

  ghost predicate Sampling(e: Scheduled, id: Id, n: nat) {
    e.needsSampling && e.id == id && e.offset + |e.tokens| == n
  }

  /** The next step samples this request after n tokens. */
  ghost predicate Samples(c: Config, g: Engine, id: Id, n: nat)
    requires Good(c, g)
  {
    GoodInv(c, g);
    exists j :: 0 <= j < |Schedule(c, g.s).1| && Sampling(Schedule(c, g.s).1[j], id, n)
  }

  lemma SampledHasLength(c: Config, s: State, batch: seq<Scheduled>, j: nat)
    requires Inv(c, s, batch) && j < |batch| && batch[j].needsSampling
    ensures j < |Order(s)| && Order(s)[j].id == batch[j].id
    ensures |Order(s)[j].tokens| == batch[j].offset + |batch[j].tokens|
    ensures NoDup(Order(s))
  {
    hide Base, Order, NoDup;
    InvNoDup(c, s, batch);
    RunningOrder(s, j);
    assert EntryOk(s.pool, s.running[j], batch[j]);
  }

  lemma SampledNotPast(c: Config, g: Engine, id: Id, n: nat)
    requires Good(c, g) && Samples(c, g, id, n)
    ensures !Past(g, id, n)
  {
    hide Good, Inv, Order, Schedule, NoDup;
    GoodInv(c, g);
    var (s, batch) := Schedule(c, g.s);
    var j :| 0 <= j < |batch| && Sampling(batch[j], id, n);
    SampledHasLength(c, s, batch, j);
  }

  lemma SampledIsPast(c: Config, w: World, g: Engine, id: Id, n: nat)
    requires Good(c, g) && Samples(c, g, id, n)
    ensures Past(StepEngine(c, w, g), id, n)
  {
    hide Good, Inv, Order, Delivering, Deliverable, AllAddressable, Schedule, ForwardAll, SampleAll, Update;
    var s, batch, kv, xs := StepIsUpdate(c, w, g);
    var j :| 0 <= j < |batch| && Sampling(batch[j], id, n);
    SampledHasLength(c, s, batch, j);
    OrderKnown(c, g, j);
    OneLength(Order(s), j);
    SampledFor(c, w, kv, batch);
    assert Pending(xs, id);
    UpdateGrows(c, s, xs, id, n);
  }

  lemma OneLength(order: seq<Request>, j: nat)
    requires NoDup(order) && j < |order|
    ensures AtLeast(order, order[j].id, |order[j].tokens|)
  {
  }

  // ---------------------------------------------------------------- the same samples, the same run

  /** The two agree on whatever may still be sampled. */
  ghost predicate Agree(w: World, w': World, g: Engine) {
    && w.isEos == w'.isEos
    && forall id, context: seq<KV>, p {:trigger w.next(id, context, p)} :: !Past(g, id, |context|) ==>
         w.next(id, context, p) == w'.next(id, context, p)
  }

  /** The two agree on what the next step samples. */
  ghost predicate AgreeNow(c: Config, w: World, w': World, g: Engine)
    requires Good(c, g)
  {
    && w.isEos == w'.isEos
    && forall id, context: seq<KV>, p {:trigger w.next(id, context, p)} :: Samples(c, g, id, |context|) ==>
         w.next(id, context, p) == w'.next(id, context, p)
  }

  lemma {:induction false} SampleSame(c: Config, w: World, w': World, kv: seq<KV>, batch: seq<Scheduled>)
    requires AllAddressable(c, kv, batch)
    requires forall j :: 0 <= j < |batch| && batch[j].needsSampling ==>
               Addressable(c, kv, batch[j]) && SampleOne(c, w, kv, batch[j]) == SampleOne(c, w', kv, batch[j])
    ensures SampleAll(c, w, kv, batch) == SampleAll(c, w', kv, batch)
  {
    hide SampleOne, Addressable;
    if batch != [] {
      assert forall j :: 0 <= j < |batch[1..]| ==> batch[1..][j] == batch[j + 1];
      SampleSame(c, w, w', kv, batch[1..]);
    }
  }

  lemma StepSame(c: Config, w: World, w': World, g: Engine)
    requires Good(c, g) && AgreeNow(c, w, w', g)
    ensures StepEngine(c, w, g) == StepEngine(c, w', g)
  {
    hide Good, Inv, Order, Delivering, Deliverable, AllAddressable, Schedule, ForwardAll, SampleAll, Update;
    var s, batch, kv, xs := StepIsUpdate(c, w, g);
    var _, _, _, xs' := StepIsUpdate(c, w', g);
    forall j | 0 <= j < |batch| && batch[j].needsSampling
      ensures Addressable(c, kv, batch[j]) && SampleOne(c, w, kv, batch[j]) == SampleOne(c, w', kv, batch[j])
    {
      OneAddressable(c, kv, batch, j);
      assert Sampling(batch[j], batch[j].id, batch[j].offset + |batch[j].tokens|);
      SampleOneSame(c, w, w', g, kv, batch[j]);
    }
    SampleSame(c, w, w', kv, batch);
  }

  lemma OneAddressable(c: Config, kv: seq<KV>, batch: seq<Scheduled>, j: nat)
    requires AllAddressable(c, kv, batch) && j < |batch|
    ensures Addressable(c, kv, batch[j])
  {
  }

  lemma SampleOneSame(c: Config, w: World, w': World, g: Engine, kv: seq<KV>, e: Scheduled)
    requires Good(c, g) && AgreeNow(c, w, w', g) && Addressable(c, kv, e)
    requires Samples(c, g, e.id, e.offset + |e.tokens|)
    ensures SampleOne(c, w, kv, e) == SampleOne(c, w', kv, e)
  {
    hide Good, Samples;
    var context := Read(c, kv, e.blocks, e.offset + |e.tokens|);
    assert w.next(e.id, context, e.params) == w'.next(e.id, context, e.params);
  }

  lemma ApplySame(c: Config, w: World, w': World, g: Engine, e: Event)
    requires Good(c, g) && EventOk(c, g, e) && Agree(w, w', g)
    ensures Apply(c, w, g, e) == Apply(c, w', g, e)
  {
    hide Good, StepEngine, Samples, Past;
    if e.Step? {
      forall id, context: seq<KV>, p | Samples(c, g, id, |context|)
        ensures w.next(id, context, p) == w'.next(id, context, p)
      {
        SampledNotPast(c, g, id, |context|);
      }
      StepSame(c, w, w', g);
    }
  }

  lemma {:induction false} RunSame(c: Config, w: World, w': World, g: Engine, events: seq<Event>)
    requires RunOk(c, g, events) && Agree(w, w', g)
    ensures Run(c, w, g, events) == Run(c, w', g, events)
    decreases |events|
  {
    hide Good, Apply, Past;
    if events != [] {
      RunRest(c, w, g, events);
      ApplySame(c, w, w', g, events[0]);
      var g' := Apply(c, w, g, events[0]);
      forall id, context: seq<KV>, p | !Past(g', id, |context|)
        ensures w.next(id, context, p) == w'.next(id, context, p)
      {
        if Past(g, id, |context|) { PastStays(c, w, g, events[0], id, |context|); }
      }
      RunSame(c, w, w', g', events[1..]);
    }
  }

  // ---------------------------------------------------------------- one sampler for all draws

  /** Draws from w for what the next step samples, and from later afterwards. */
  ghost function First(c: Config, w: World, later: World, g: Engine): World
    requires Good(c, g)
  {
    World((id, context, p) =>
            if Samples(c, g, id, |context|) then w.next(id, context, p) else later.next(id, context, p),
          w.isEos)
  }

  lemma FirstAgrees(c: Config, w: World, later: World, g: Engine)
    requires Good(c, g) && w.isEos == later.isEos
    ensures AgreeNow(c, First(c, w, later, g), w, g)
    ensures Agree(First(c, w, later, g), later, StepEngine(c, w, g))
  {
    hide Good, Samples, Past, StepEngine;
    var w' := First(c, w, later, g);
    forall id, context: seq<KV>, p | !Past(StepEngine(c, w, g), id, |context|)
      ensures w'.next(id, context, p) == later.next(id, context, p)
    {
      if Samples(c, g, id, |context|) { SampledIsPast(c, w, g, id, |context|); }
    }
  }

  /** However the tokens are drawn, step by step and request by request, there is a sampler
      that does not change and makes the same run. */
  lemma {:induction false} AnyDraws(c: Config, worlds: seq<World>, isEos: Token -> bool, g: Engine, events: seq<Event>)
    returns (w: World)
    requires RunOk(c, g, events) && |worlds| == |events|
    requires forall i :: 0 <= i < |worlds| ==> worlds[i].isEos == isEos
    ensures w.isEos == isEos && Run(c, w, g, events) == RunDrawing(c, worlds, g, events)
    decreases |events|
  {
    hide Good, Agree, AgreeNow, Apply, First;
    if events == [] {
      w := World((id, context, p) => 0, isEos);
    } else {
      RunRest(c, worlds[0], g, events);
      var g' := Apply(c, worlds[0], g, events[0]);
      var later := AnyDraws(c, worlds[1..], isEos, g', events[1..]);
      w := DrawFirst(c, worlds[0], later, g, events[0]);
      RunRest(c, w, g, events);
      RunSame(c, w, later, g', events[1..]);
    }
  }

  lemma DrawFirst(c: Config, w: World, later: World, g: Engine, e: Event) returns (w': World)
    requires Good(c, g) && EventOk(c, g, e) && w.isEos == later.isEos
    ensures w'.isEos == w.isEos && Apply(c, w', g, e) == Apply(c, w, g, e)
    ensures Agree(w', later, Apply(c, w, g, e))
  {
    hide Good, AgreeNow, StepEngine, Samples, Past;
    if e.Step? {
      w' := First(c, w, later, g);
      FirstAgrees(c, w, later, g);
      StepSame(c, w', w, g);
    } else {
      w' := later;
    }
  }

  /** So the promises hold for arbitrary draws: there is one sampler, of which each request
      hears the lone run, that accounts for all of them. */
  lemma EveryDrawnRunIsSolo(c: Config, worlds: seq<World>, isEos: Token -> bool, events: seq<Event>) returns (w: World)
    requires ArrivalsOk(c, events) && |worlds| == |events|
    requires forall i :: 0 <= i < |worlds| ==> worlds[i].isEos == isEos
    ensures RunOk(c, Start(c), events)
    ensures var g := RunDrawing(c, worlds, Start(c), events);
            forall i :: 0 <= i < |events| && events[i].Add? ==>
              var a := events[i].a;
              var heard := LogOf(g.log, a.id);
              var gone := Absent(Order(g.s), a.id) && a.id !in g.aborted;
              && Heard(c, w, a, heard) && (if gone then Closed(heard) else AllGoOn(heard))
              && (HashTrusted(c, Prefixes(g)) ==>
                    && Alone(c, w, a, heard) && heard <= SoloOutputs(c, w, Core(Accept(a)))
                    && (heard == SoloOutputs(c, w, Core(Accept(a))) <==> gone))
  {
    hide Good, Run, RunDrawing, RunOk, ArrivalsOk, Order, LogOf, Heard, Alone, Closed, AllGoOn, Absent, SoloOutputs,
         HashTrusted, Prefixes;
    StartRunOk(c, events);
    w := AnyDraws(c, worlds, isEos, Start(c), events);
    forall i | 0 <= i < |events| && events[i].Add?
      ensures var g, a := Run(c, w, Start(c), events), events[i].a;
              var heard := LogOf(g.log, a.id);
              var gone := Absent(Order(g.s), a.id) && a.id !in g.aborted;
              && Heard(c, w, a, heard) && (if gone then Closed(heard) else AllGoOn(heard))
              && (HashTrusted(c, Prefixes(g)) ==>
                    && Alone(c, w, a, heard) && heard <= SoloOutputs(c, w, Core(Accept(a)))
                    && (heard == SoloOutputs(c, w, Core(Accept(a))) <==> gone))
    {
      OutputProtocol(c, w, events, i);
      if HashTrusted(c, Occurring(c, w, events)) { EveryRunIsSolo(c, w, events, i); }
    }
  }
}
