/** First come, first served, over whole runs: the running requests, then the preempted ones,
    then the waiting ones are the live requests in the order in which they arrived. */
module ArrivalOrder {
  import opened Types
  import opened Decoder
  import opened SchedulerModel
  import opened ScheduleStep
  import opened Executor
  import opened Lifecycle
  import opened UpdateStep
  import opened EngineModel
  import opened EngineRuns

  /** Which event of the run brought the request. */
  function Arrived(events: seq<Event>, id: Id): (i: nat)
    ensures i <= |events|
    ensures i < |events| ==> events[i].Add? && events[i].a.id == id
    ensures forall j :: 0 <= j < i ==> !(events[j].Add? && events[j].a.id == id)
  {
    if events == [] || (events[0].Add? && events[0].a.id == id) then 0 else 1 + Arrived(events[1..], id)
  }

  /** The requests arrived one after the other, and before event k. */
  ghost predicate InArrivalOrder(events: seq<Event>, order: seq<Request>, k: nat) {
    && (forall i :: 0 <= i < |order| ==> Arrived(events, order[i].id) < k)
    && (forall i, j :: 0 <= i < j < |order| ==> Arrived(events, order[i].id) < Arrived(events, order[j].id))
  }

  lemma DeleteInOrder(events: seq<Event>, order: seq<Request>, k: nat, i: nat)
    requires InArrivalOrder(events, order, k) && i < |order|
    ensures InArrivalOrder(events, Delete(order, i), k)
  {
    hide Arrived;
    var order' := Delete(order, i);
    forall a, b | 0 <= a < b < |order'|
      ensures Arrived(events, order'[a].id) < Arrived(events, order'[b].id)
    {
      assert order'[a] == order[if a < i then a else a + 1] && order'[b] == order[if b < i then b else b + 1];
    }
  }

  lemma SameIdsInOrder(events: seq<Event>, order: seq<Request>, order': seq<Request>, k: nat)
    requires InArrivalOrder(events, order, k) && |order'| == |order|
    requires forall i :: 0 <= i < |order| ==> order'[i].id == order[i].id
    ensures InArrivalOrder(events, order', k)
  {
    hide Arrived;
  }

  lemma {:induction false} UpdateInOrder(c: Config, s: State, rest: seq<Sampled>, events: seq<Event>, k: nat)
    requires Delivering(c, s, rest) && Deliverable(s, rest) && InArrivalOrder(events, Order(s), k)
    ensures InArrivalOrder(events, Order(Update(c, s, rest).0), k)
    decreases |rest|
  {
    hide Delivering, Deliverable, InArrivalOrder, Order, Find, Delete;
    if rest != [] {
      var i := FirstRunning(s, rest);
      DeliverKeeps(c, s, rest, i);
      DeliverOrder(c, s, i, rest[0]);
      DeleteInOrder(events, Order(s), k, i);
      var s' := Deliver(c, s, i, rest[0]).0;
      if |Order(s')| == |Order(s)| { SameIdsInOrder(events, Order(s), Order(s'), k); }
      UpdateInOrder(c, s', rest[1..], events, k);
    }
  }

  lemma StepInOrder(c: Config, w: World, g: Engine, events: seq<Event>, k: nat)
    requires Good(c, g) && InArrivalOrder(events, Order(g.s), k)
    ensures InArrivalOrder(events, Order(StepEngine(c, w, g).s), k)
  {
    hide Good, Delivering, Deliverable, AllAddressable, Inv, Order, InArrivalOrder, Schedule, Update, ForwardAll,
         SampleAll;
    GoodInv(c, g);
    var (s, batch) := Schedule(c, g.s);
    BatchAddressable(c, s, g.kv, batch);
    var kv := ForwardAll(c, g.kv, batch, 0);
    BatchAddressable(c, s, kv, batch);
    StepDelivers(c, w, s, kv, batch);
    UpdateInOrder(c, s, SampleAll(c, w, kv, batch), events, k);
  }

  lemma AbortInOrder(c: Config, g: Engine, id: Id, events: seq<Event>, k: nat)
    requires Good(c, g) && InArrivalOrder(events, Order(g.s), k)
    ensures InArrivalOrder(events, Order(AbortEngine(c, g, id).s), k)
  {
    hide Good, Inv, Order, InArrivalOrder, Find, Delete, Removable, Remove;
    GoodInv(c, g);
    RemoveKeepsInv(c, g.s, id);
    InvNoDup(c, g.s, []);
    RemoveOrder(c, g.s, id);
    if Rank(g.s, id) < |Order(g.s)| { DeleteInOrder(events, Order(g.s), k, Rank(g.s, id)); }
  }

  lemma AddInOrder(g: Engine, events: seq<Event>, k: nat)
    requires k < |events| && events[k].Add? && Arrived(events, events[k].a.id) == k
    requires InArrivalOrder(events, Order(g.s), k)
    ensures InArrivalOrder(events, Order(AddEngine(g, events[k].a).s), k + 1)
  {
    hide Order, Arrived;
    AddOrder(g.s, events[k].a);
  }

  lemma LaterInOrder(events: seq<Event>, order: seq<Request>, k: nat)
    requires InArrivalOrder(events, order, k)
    ensures InArrivalOrder(events, order, k + 1)
  {
  }

  lemma {:induction false} RunInOrder(c: Config, w: World, g: Engine, events: seq<Event>, k: nat)
    requires k <= |events| && RunOk(c, g, events[k..]) && InArrivalOrder(events, Order(g.s), k)
    requires ArrivalsOk(c, events)
    ensures InArrivalOrder(events, Order(Run(c, w, g, events[k..]).s), |events|)
    decreases |events| - k
  {
    hide RunOk, Good, Order, InArrivalOrder, StepEngine, AbortEngine, Arrived;
    if k < |events| {
      var rest := events[k..];
      RunRest(c, w, g, rest);
      assert rest[0] == events[k] && rest[1..] == events[k + 1..];
      match events[k] {
        case Add(a) => ArrivesAt(c, events, k); AddInOrder(g, events, k);
        case Abort(id) => AbortInOrder(c, g, id, events, k); LaterInOrder(events, Order(AbortEngine(c, g, id).s), k);
        case Step => StepInOrder(c, w, g, events, k); LaterInOrder(events, Order(StepEngine(c, w, g).s), k);
      }
      RunInOrder(c, w, Apply(c, w, g, events[k]), events, k + 1);
    }
  }

  lemma ArrivesAt(c: Config, events: seq<Event>, k: nat)
    requires ArrivalsOk(c, events) && k < |events| && events[k].Add?
    ensures Arrived(events, events[k].a.id) == k
  {
    assert Arrived(events, events[k].a.id) <= k;
  }

  /** At every point of every run the lists together are in arrival order. */
  lemma FirstComeFirstServed(c: Config, w: World, events: seq<Event>)
    requires ArrivalsOk(c, events)
    ensures RunOk(c, Start(c), events)
    ensures var order := Order(Run(c, w, Start(c), events).s);
            forall i, j :: 0 <= i < j < |order| ==>
              Arrived(events, order[i].id) < Arrived(events, order[j].id) < |events|
  {
    hide RunOk, Good, Run, Arrived;
    StartRunOk(c, events);
    assert events[0..] == events;
    RunInOrder(c, w, Start(c), events, 0);
  }
}
