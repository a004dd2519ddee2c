/** Nobody waits for ever: the oldest request always advances, so everybody behind it does. */
module Starvation {
  import opened Types
  import opened Arith
  import opened CachePool
  import opened PoolInvariant
  import opened Decoder
  import opened SchedulerModel
  import opened ScheduleStep
  import opened StepTheorems
  import opened Executor
  import opened Lifecycle
  import opened UpdateStep
  import opened EngineModel
  import opened EngineRuns

  ghost predicate Live(s: State, id: Id) {
    Rank(s, id) < |Order(s)|
  }

  /** How far the oldest request has come. */
  function OldestDone(s: State): nat {
    if s.running != [] then s.running[0].numComputed else 0
  }

  /** Rounds left for a request: a full length for each older one, and the rest of the oldest. */
  ghost function Measure(c: Config, s: State, id: Id): int {
    Span(c.maxModelLen, Rank(s, id)) + c.maxModelLen - OldestDone(s)
  }

  lemma {:induction false} FindDelete(rs: seq<Request>, i: nat, id: Id)
    requires i < |rs| && rs[i].id != id
    ensures Find(Delete(rs, i), id) == if Find(rs, id) > i then Find(rs, id) - 1 else Find(rs, id)
  {
    if i == 0 {
      assert Delete(rs, 0) == rs[1..];
    } else {
      assert Delete(rs, i) == [rs[0]] + Delete(rs[1..], i - 1);
      if rs[0].id != id { FindDelete(rs[1..], i - 1, id); }
    }
  }

  lemma FindGone(rs: seq<Request>, i: nat)
    requires NoDup(rs) && i < |rs|
    ensures Find(Delete(rs, i), rs[i].id) == |rs| - 1
  {
  }

  lemma {:induction false} FindSameIds(rs: seq<Request>, rs': seq<Request>, id: Id)
    requires |rs| == |rs'| && forall i :: 0 <= i < |rs| ==> rs[i].id == rs'[i].id
    ensures Find(rs, id) == Find(rs', id)
  {
    if rs != [] && rs[0].id != id { FindSameIds(rs[1..], rs'[1..], id); }
  }

  /** Deleting position i of the order never makes anybody wait longer, provided the oldest
      request keeps its place or had no more than a full length done. */
  lemma DeletionHelps(c: Config, order: seq<Request>, i: nat, id: Id, done: nat, done': nat)
    requires NoDup(order) && i < |order| && done <= c.maxModelLen && (i > 0 ==> done' >= done)
    requires Find(Delete(order, i), id) < |order| - 1
    ensures Find(order, id) < |order|
    ensures Span(c.maxModelLen, Find(Delete(order, i), id)) + c.maxModelLen - done'
            <= Span(c.maxModelLen, Find(order, id)) + c.maxModelLen - done
  {
    hide Find, Delete;
    if order[i].id == id { FindGone(order, i); }
    FindDelete(order, i, id);
    if i == 0 {
      assert Find(order, id) > 0;
      SpanGrows(c.maxModelLen, Find(order, id) - 1, Find(order, id));
    } else if Find(order, id) > i {
      SpanGrows(c.maxModelLen, Find(order, id) - 1, Find(order, id));
    }
  }

  // ---------------------------------------------------------------- delivery

  lemma OldestWithin(c: Config, s: State, rest: seq<Sampled>)
    requires Delivering(c, s, rest)
    ensures OldestDone(s) < c.maxModelLen && NoDup(Order(s))
  {
    hide PoolOk, TableOk, Order;
    if s.running != [] { assert RunningOk(c, s.pool, s.running[0], Computed(s)[0]); }
  }

  lemma DeliverHelps(c: Config, s: State, rest: seq<Sampled>, i: nat, id: Id)
    requires Delivering(c, s, rest) && Deliverable(s, rest) && rest != []
    requires i < |s.running| && s.running[i].id == rest[0].id
    ensures Releasable(c, s.pool, Grow(s.running[i], rest[0].token))
    ensures var s' := Deliver(c, s, i, rest[0]).0;
            Live(s', id) ==> Live(s, id) && Measure(c, s', id) <= Measure(c, s, id)
  {
    hide Delivering, Releasable, Order, Find, Delete;
    DeliverKeeps(c, s, rest, i);
    DeliverOrder(c, s, i, rest[0]);
    OldestWithin(c, s, rest);
    var (s', out) := Deliver(c, s, i, rest[0]);
    if out.reason == GoOn {
      FindSameIds(Order(s), Order(s'), id);
    } else if Live(s', id) {
      RemovedOldest(c, s, i, rest[0]);
      DeletionHelps(c, Order(s), i, id, OldestDone(s), OldestDone(s'));
    }
  }

  lemma RemovedOldest(c: Config, s: State, i: nat, x: Sampled)
    requires i < |s.running| && Releasable(c, s.pool, Grow(s.running[i], x.token))
    ensures i > 0 ==> OldestDone(Deliver(c, s, i, x).0) == OldestDone(s)
  {
    hide Releasable, Release;
  }

  lemma {:induction false} UpdateHelps(c: Config, s: State, rest: seq<Sampled>, id: Id)
    requires Delivering(c, s, rest) && Deliverable(s, rest)
    ensures var s' := Update(c, s, rest).0;
            Live(s', id) ==> Live(s, id) && Measure(c, s', id) <= Measure(c, s, id)
    decreases |rest|
  {
    hide Delivering, Deliverable, Releasable, Live, Measure, Deliver;
    if rest != [] {
      var i := FirstRunning(s, rest);
      DeliverKeeps(c, s, rest, i);
      DeliverHelps(c, s, rest, i, id);
      UpdateHelps(c, Deliver(c, s, i, rest[0]).0, rest[1..], id);
    }
  }

  // ---------------------------------------------------------------- one event

  /** Every step brings every live request strictly closer to its end. */
  lemma StepHelps(c: Config, w: World, g: Engine, id: Id)
    requires CapacityOk(c) && Good(c, g) && Live(StepEngine(c, w, g).s, id)
    ensures Live(g.s, id) && Measure(c, StepEngine(c, w, g).s, id) < Measure(c, g.s, id)
  {
    hide Good, Delivering, AllAddressable, CapacityOk, Order;
    hide Schedule, ForwardAll, SampleAll, Update, Inv, OldestDone;
    GoodInv(c, g);
    var (s, batch) := Schedule(c, g.s);
    BatchAddressable(c, s, g.kv, batch);
    var kv := ForwardAll(c, g.kv, batch, 0);
    BatchAddressable(c, s, kv, batch);
    StepDelivers(c, w, s, kv, batch);
    UpdateHelps(c, s, SampleAll(c, w, kv, batch), id);
    OldestAdvances(c, g.s);
  }

  lemma OldestAdvances(c: Config, s: State)
    requires CapacityOk(c) && Inv(c, s, []) && Order(s) != []
    ensures OldestDone(Schedule(c, s).0) > OldestDone(s)
  {
    hide Base, Order, CapacityOk, Schedule;
    ScheduleServesOldest(c, s);
    var (s', batch) := Schedule(c, s);
    assert EntryOk(s'.pool, s'.running[0], batch[0]);
  }

  lemma AbortHelps(c: Config, g: Engine, id: Id, victim: Id)
    requires Good(c, g) && Live(AbortEngine(c, g, victim).s, id)
    ensures Live(g.s, id) && Measure(c, AbortEngine(c, g, victim).s, id) <= Measure(c, g.s, id)
  {
    hide Good, Inv, Order, Find, Delete, Removable, Remove;
    GoodInv(c, g);
    RemoveKeepsInv(c, g.s, victim);
    if Rank(g.s, victim) < |Order(g.s)| {
      InvNoDup(c, g.s, []);
      RemoveOrder(c, g.s, victim);
      AbortedOldest(c, g.s, victim);
      DeletionHelps(c, Order(g.s), Rank(g.s, victim), id, OldestDone(g.s), OldestDone(Remove(c, g.s, victim)));
    }
  }

  lemma AbortedOldest(c: Config, s: State, victim: Id)
    requires Inv(c, s, []) && Removable(c, s, victim) && Rank(s, victim) < |Order(s)|
    ensures OldestDone(s) <= c.maxModelLen
    ensures Rank(s, victim) > 0 ==> OldestDone(Remove(c, s, victim)) == OldestDone(s)
  {
    hide PoolOk, TableOk, Release, Releasable, Order;
    if s.running != [] {
      assert RunningOk(c, s.pool, s.running[0], Dones(s, [])[0]);
      RunningOrder(s, 0);
    }
  }

  lemma {:induction false} AddHelps(c: Config, g: Engine, a: Arrival, id: Id)
    requires Live(g.s, id)
    ensures Live(AddEngine(g, a).s, id) && Measure(c, AddEngine(g, a).s, id) == Measure(c, g.s, id)
  {
    hide Order;
    AddOrder(g.s, a);
    FindAppend(Order(g.s), Core(Accept(a)), id);
  }

  lemma {:induction false} FindAppend(rs: seq<Request>, r: Request, id: Id)
    requires Find(rs, id) < |rs| || r.id != id
    ensures Find(rs + [r], id) == if Find(rs, id) < |rs| then Find(rs, id) else |rs| + 1
  {
    if rs != [] && rs[0].id != id {
      assert (rs + [r])[1..] == rs[1..] + [r];
      FindAppend(rs[1..], r, id);
    }
  }

  // ---------------------------------------------------------------- runs

  function Steps(events: seq<Event>): nat {
    if events == [] then 0 else (if events[0].Step? then 1 else 0) + Steps(events[1..])
  }

  lemma ApplyHelps(c: Config, w: World, g: Engine, e: Event, id: Id)
    requires CapacityOk(c) && Good(c, g) && EventOk(c, g, e) && id in g.added && Live(Apply(c, w, g, e).s, id)
    ensures Live(g.s, id)
    ensures Measure(c, Apply(c, w, g, e).s, id) <= Measure(c, g.s, id) - if e.Step? then 1 else 0
  {
    hide Good, Measure, StepEngine, AbortEngine, CapacityOk;
    match e {
      case Add(a) => AddedStaysDead(g, a, id); AddHelps(c, g, a, id);
      case Abort(victim) => AbortHelps(c, g, id, victim);
      case Step => StepHelps(c, w, g, id);
    }
  }

  lemma AddedStaysDead(g: Engine, a: Arrival, id: Id)
    requires a.id != id && Live(AddEngine(g, a).s, id)
    ensures Live(g.s, id)
  {
    hide Order;
    AddOrder(g.s, a);
    FindAppend(Order(g.s), Core(Accept(a)), id);
  }

  lemma MeasurePositive(c: Config, g: Engine, id: Id)
    requires Good(c, g)
    ensures Measure(c, g.s, id) > 0
  {
    hide PoolOk, TableOk, Order, Find;
    var s := g.s;
    if s.running != [] { assert RunningOk(c, s.pool, s.running[0], Dones(s, [])[0]); }
  }

  /** A request that is live after a run had more rounds left at its start than the run has steps. */
  lemma {:induction false} LiveMeansMeasure(c: Config, w: World, g: Engine, events: seq<Event>, id: Id)
    requires CapacityOk(c) && RunOk(c, g, events) && id in g.added && Live(Run(c, w, g, events).s, id)
    ensures Steps(events) < Measure(c, g.s, id)
    decreases |events|
  {
    hide Good, Measure, Apply, CapacityOk, Live;
    if events == [] {
      MeasurePositive(c, g, id);
    } else {
      RunRest(c, w, g, events);
      var g' := Apply(c, w, g, events[0]);
      assert id in g'.added.Keys;
      LiveMeansMeasure(c, w, g', events[1..], id);
      StillLive(c, w, g', events[1..], id);
      ApplyHelps(c, w, g, events[0], id);
    }
  }

  lemma {:induction false} StillLive(c: Config, w: World, g: Engine, events: seq<Event>, id: Id)
    requires CapacityOk(c) && RunOk(c, g, events) && id in g.added && Live(Run(c, w, g, events).s, id)
    ensures Live(g.s, id)
    decreases |events|
  {
    hide Good, Measure, Apply, CapacityOk, Live;
    if events != [] {
      RunRest(c, w, g, events);
      var g' := Apply(c, w, g, events[0]);
      assert id in g'.added.Keys;
      StillLive(c, w, g', events[1..], id);
      ApplyHelps(c, w, g, events[0], id);
    }
  }
}
