/** The engine core as it is implemented: a loop that takes in messages, schedules, runs the
    model and delivers.  Its runs are the runs of the engine model, event by event. */
module EngineCore {
  import opened Types
  import opened Decoder
  import opened SchedulerModel
  import opened ScheduleStep
  import opened SchedulerRounds
  import opened PoolContent
  import opened Executor
  import opened Lifecycle
  import opened UpdateStep
  import opened EngineModel
  import opened History
  import opened EngineRuns
  import opened Promises
  import opened Guarantees
  import opened Starvation
  import S = Scheduler
  import M = ModelRunner

  /** What arrives on the input socket. */
  datatype Message = AddMessage(a: Arrival) | AbortMessage(ids: seq<Id>) | ShutdownMessage

  // ---------------------------------------------------------------- as events

  ghost function Aborts(ids: seq<Id>): (es: seq<Event>)
    ensures |es| == |ids| && forall i :: 0 <= i < |ids| ==> es[i] == Abort(ids[i])
  {
    seq(|ids|, i requires 0 <= i < |ids| => Abort(ids[i]))
  }

  ghost function EventsOf(m: Message): seq<Event> {
    match m
    case AddMessage(a) => [Add(a)]
    case AbortMessage(ids) => Aborts(ids)
    case ShutdownMessage => []
  }

  /** The events of one call of process_inputs; messages behind a shutdown stay unread. */
  ghost function Taken(messages: seq<Message>): seq<Event> {
    if messages == [] || messages[0].ShutdownMessage? then []
    else EventsOf(messages[0]) + Taken(messages[1..])
  }

  /** The events of a run: every round without a shutdown ends with a step. */
  ghost function RunEvents(rounds: seq<seq<Message>>): seq<Event> {
    if rounds == [] then []
    else if ShutdownMessage in rounds[0] then Taken(rounds[0])
    else Taken(rounds[0]) + [Step] + RunEvents(rounds[1..])
  }

  /** The engine after the events es, given that they form a run. */
  ghost function After(c: Config, w: World, g: Engine, es: seq<Event>): Engine {
    if RunOk(c, g, es) then Run(c, w, g, es) else g
  }

  lemma AfterNext(c: Config, w: World, g: Engine, es: seq<Event>)
    requires RunOk(c, g, es) && es != []
    ensures Good(c, g) && EventOk(c, g, es[0])
    ensures RunOk(c, Apply(c, w, g, es[0]), es[1..])
    ensures After(c, w, g, es) == After(c, w, Apply(c, w, g, es[0]), es[1..])
  {
    hide RunOk, Apply;
    RunRest(c, w, g, es);
    RunOkGood(c, g, es);
  }

  lemma RunOkGood(c: Config, g: Engine, es: seq<Event>)
    requires RunOk(c, g, es)
    ensures Good(c, g)
  {
  }

  ghost function Stepping(c: Config, w: World, g: Engine): Engine {
    if Good(c, g) then StepEngine(c, w, g) else g
  }

  // ---------------------------------------------------------------- the parts of a step

  lemma StepParts(c: Config, w: World, g: Engine)
    requires Good(c, g)
    ensures Inv(c, g.s, [])
    ensures var (s, batch) := Stepped(c, g.s);
            && AllAddressable(c, g.kv, batch)
            && var kv := ForwardAll(c, g.kv, batch, 0);
               && AllAddressable(c, kv, batch)
               && Owed(c, s, SampleAll(c, w, kv, batch))
               && var (s', outs) := Updated(c, s, SampleAll(c, w, kv, batch));
                  Stepping(c, w, g) == g.(s := s', kv := kv, log := g.log + outs)
    ensures Good(c, Stepping(c, w, g))
  {
    hide Good, Delivering, Deliverable, AllAddressable, Inv;
    GoodInv(c, g);
    StepKeepsGood(c, w, g);
    var (s, batch) := Schedule(c, g.s);
    BatchAddressable(c, s, g.kv, batch);
    var kv := ForwardAll(c, g.kv, batch, 0);
    BatchAddressable(c, s, kv, batch);
    StepDelivers(c, w, s, kv, batch);
  }

  ghost function AbortOne(c: Config, g: Engine, id: Id): Engine {
    g.(s := Removed(c, g.s, id), aborted := g.aborted + if Rank(g.s, id) < |Order(g.s)| then {id} else {})
  }

  ghost function AbortMany(c: Config, g: Engine, ids: seq<Id>): Engine
    decreases |ids|
  {
    if ids == [] then g else AbortMany(c, AbortOne(c, g, ids[0]), ids[1..])
  }

  lemma {:induction false} AbortManyIs(c: Config, g: Engine, ids: seq<Id>)
    ensures AbortMany(c, g, ids) == g.(s := AbortAll(c, g.s, ids), aborted := AbortMany(c, g, ids).aborted)
    decreases |ids|
  {
    hide Removed, Rank;
    if ids != [] { AbortManyIs(c, AbortOne(c, g, ids[0]), ids[1..]); }
  }

  /** An abort of several ids is that many abort events. */
  lemma {:induction false} AbortsApply(c: Config, w: World, g: Engine, ids: seq<Id>, rest: seq<Event>)
    requires RunOk(c, g, Aborts(ids) + rest)
    ensures RunOk(c, AbortMany(c, g, ids), rest)
    ensures After(c, w, g, Aborts(ids) + rest) == After(c, w, AbortMany(c, g, ids), rest)
    decreases |ids|
  {
    hide RunOk, Good, AbortOne, After, StepEngine, AbortEngine;
    if ids == [] {
      assert Aborts(ids) + rest == rest;
    } else {
      var es := Aborts(ids) + rest;
      AfterNext(c, w, g, es);
      assert es[0] == Abort(ids[0]) && es[1..] == Aborts(ids[1..]) + rest;
      AbortIs(c, g, ids[0]);
      AbortsApply(c, w, AbortEngine(c, g, ids[0]), ids[1..], rest);
    }
  }

  lemma AbortIs(c: Config, g: Engine, id: Id)
    requires Good(c, g)
    ensures AbortEngine(c, g, id) == AbortOne(c, g, id)
  {
    hide Order, Inv;
    GoodInv(c, g);
    RemoveKeepsInv(c, g.s, id);
    if Rank(g.s, id) == |Order(g.s)| {
      DeadStays(c, g.s, id);
    }
  }

  lemma DeadStays(c: Config, s: State, id: Id)
    requires Rank(s, id) == |Order(s)|
    ensures Removed(c, s, id) == s
  {
    hide Cores, Find, Removed;
    var order, a, b, d := Order(s), Cores(s.running), Cores(s.preempted), Cores(s.waiting);
    assert order == [] + a + (b + d) && order == a + b + d && order == (a + b) + d + [];
    NotAmong([], s.running, b + d, id);
    NotAmong(a, s.preempted, d, id);
    NotAmong(a + b, s.waiting, [], id);
    RemovedUnknown(c, s, id);
  }

  lemma NotAmong(before: seq<Request>, rs: seq<Request>, after: seq<Request>, id: Id)
    requires Find(before + Cores(rs) + after, id) == |before + Cores(rs) + after|
    ensures forall i :: 0 <= i < |rs| ==> rs[i].id != id
  {
    hide Find;
    forall i | 0 <= i < |rs|
      ensures rs[i].id != id
    {
      assert (before + Cores(rs) + after)[|before| + i] == Core(rs[i]);
    }
  }

  lemma AddIs(c: Config, w: World, g: Engine, a: Arrival, rest: seq<Event>)
    requires RunOk(c, g, [Add(a)] + rest)
    ensures ArrivalOk(c, a) && a.id !in g.added && Good(c, g)
    ensures RunOk(c, AddEngine(g, a), rest) && After(c, w, g, [Add(a)] + rest) == After(c, w, AddEngine(g, a), rest)
  {
    hide Good, After, StepEngine, AbortEngine;
    AfterNext(c, w, g, [Add(a)] + rest);
    assert ([Add(a)] + rest)[1..] == rest;
  }

  lemma StepIs(c: Config, w: World, g: Engine, rest: seq<Event>)
    requires RunOk(c, g, [Step] + rest)
    ensures Good(c, g)
    ensures RunOk(c, Stepping(c, w, g), rest) && After(c, w, g, [Step] + rest) == After(c, w, Stepping(c, w, g), rest)
  {
    hide Good, After, StepEngine, AbortEngine;
    AfterNext(c, w, g, [Step] + rest);
    assert ([Step] + rest)[1..] == rest;
  }

  class EngineCore {
    const config: Config
    const world: World
    const runner: M.ModelRunner
    const scheduler: S.Scheduler

    /** Everything sent to the frontend, every request accepted, and the ones aborted. */
    ghost var log: seq<Output>
    ghost var added: map<Id, Request>
    ghost var aborted: set<Id>

    ghost function View(): (g: Engine)
      reads this, runner, runner.kv, scheduler, scheduler.running, scheduler.preempted, scheduler.waiting
      reads scheduler.manager, scheduler.manager.blocks
      ensures g.added == added
    {
      Engine(scheduler.View(), runner.kv[..], log, added, aborted)
    }

    ghost predicate PartsOk()
      reads this, runner, scheduler, scheduler.running, scheduler.preempted, scheduler.waiting
      reads scheduler.manager, scheduler.manager.blocks
    {
      && scheduler.Valid() && scheduler.config == config
      && runner.config == config && runner.world == world && runner.inflight == []
    }

    ghost predicate Valid()
      reads this, runner, runner.kv, scheduler, scheduler.running, scheduler.preempted, scheduler.waiting
      reads scheduler.manager, scheduler.manager.blocks
    {
      PartsOk() && Good(config, View())
    }

    constructor (c: Config, w: World)
      ensures Valid() && config == c && world == w && View() == Start(c)
      ensures fresh(runner) && fresh(runner.kv) && fresh(scheduler) && fresh(scheduler.manager)
                && fresh(scheduler.manager.blocks)
      ensures scheduler.Nodes() == []
    {
      hide S.Scheduler.Valid, S.Scheduler.View, Good;
      config, world := c, w;
      runner := new M.ModelRunner(c, w);
      scheduler := new S.Scheduler(c);
      log, added, aborted := [], map[], {};
      new;
      StartGood(c);
    }

    /** One round: schedule, run the model, deliver. */
    method Step()
      requires Valid()
      modifies this, runner, runner.kv, scheduler, scheduler.manager, scheduler.manager.blocks, scheduler.Nodes()
      ensures Valid() && View() == Stepping(config, world, old(View()))
      ensures forall n :: n in scheduler.Nodes() ==> n in old(scheduler.Nodes())
    {
      hide S.Scheduler.Valid, S.Scheduler.View, S.Scheduler.Nodes, Good, Stepping, Stepped, Updated, Owed, Inv,
           AllAddressable,
           ForwardAll, SampleAll, M.Awaits;
      StepParts(config, world, View());
      var scheduled := scheduler.Schedule();
      runner.RunModel(scheduled);
      var sampled := runner.Finish(SampleAll(config, world, runner.kv[..], scheduled));
      var outputs := scheduler.Update(sampled);
      log := log + outputs;
    }

    method Accept(a: Arrival)
      requires Valid() && ArrivalOk(config, a) && a.id !in added
      modifies this, scheduler
      ensures Valid() && View() == AddEngine(old(View()), a)
      ensures forall n :: n in scheduler.Nodes() ==> n in old(scheduler.Nodes()) || fresh(n)
    {
      hide S.Scheduler.Valid, S.Scheduler.View, S.Scheduler.Nodes, Good;
      AddKeepsGood(config, View(), a);
      if a.id in scheduler.idToRequest { IndexedIsAdded(a.id); }
      scheduler.AddRequest(a);
      added := added[a.id := Core(Lifecycle.Accept(a))];
    }

    /** Whatever the scheduler's index knows was accepted once. */
    lemma IndexedIsAdded(id: Id)
      requires Valid() && id in scheduler.idToRequest
      ensures id in added
    {
      hide S.Scheduler.View, S.Scheduler.Nodes, Good, Order;
      scheduler.Indexed(id);
      var nodes := scheduler.Nodes();
      var i :| 0 <= i < |nodes| && nodes[i] == scheduler.idToRequest[id];
      scheduler.NodeInOrder(i);
      OrderKnown(config, View(), i);
    }

    method AbortRequests(ids: seq<Id>)
      requires Valid()
      modifies this, scheduler, scheduler.manager, scheduler.manager.blocks
      ensures PartsOk() && View() == AbortMany(config, old(View()), ids)
      ensures forall n :: n in scheduler.Nodes() ==> n in old(scheduler.Nodes())
    {
      hide S.Scheduler.Valid, S.Scheduler.View, S.Scheduler.Nodes, Inv, AbortMany;
      GoodInv(config, View());
      AbortManyIs(config, View(), ids);
      scheduler.AbortRequests(ids);
      aborted := AbortMany(config, old(View()), ids).aborted;
    }

    /** Takes in the messages that have arrived; false means shut down. */
    method ProcessInputs(messages: seq<Message>, ghost rest: seq<Event>) returns (more: bool)
      requires PartsOk() && RunOk(config, View(), Taken(messages) + rest)
      modifies this, scheduler, scheduler.manager, scheduler.manager.blocks
      ensures PartsOk() && RunOk(config, View(), rest) && more == (ShutdownMessage !in messages)
      ensures After(config, world, View(), rest) == After(config, world, old(View()), Taken(messages) + rest)
      ensures forall n :: n in scheduler.Nodes() ==> n in old(scheduler.Nodes()) || fresh(n)
    {
      hide S.Scheduler.Valid, S.Scheduler.View, S.Scheduler.Nodes, RunOk, Good, After, AddEngine, AbortMany,
           Aborts, PartsOk, View;
      assert messages[0..] == messages;
      for k := 0 to |messages|
        invariant PartsOk() && RunOk(config, View(), Taken(messages[k..]) + rest)
        invariant After(config, world, View(), Taken(messages[k..]) + rest)
                  == After(config, world, old(View()), Taken(messages) + rest)
        invariant ShutdownMessage !in messages[..k]
        invariant forall n :: n in scheduler.Nodes() ==> n in old(scheduler.Nodes()) || fresh(n)
      {
        var m := messages[k];
        ghost var later := Taken(messages[k + 1..]) + rest;
        assert messages[k..][0] == m && messages[k..][1..] == messages[k + 1..];
        TakenNext(messages[k..], rest);
        RunOkGood(config, View(), Taken(messages[k..]) + rest);
        match m {
          case AddMessage(a) =>
            AddIs(config, world, View(), a, later);
            Accept(a);
          case AbortMessage(ids) =>
            AbortsApply(config, world, View(), ids, later);
            AbortRequests(ids);
          case ShutdownMessage =>
            assert [] + rest == rest;
            return false;
        }
      }
      assert messages[|messages|..] == [] && [] + rest == rest;
      more := true;
    }

    /** The engine's loop; each round takes in what has arrived by then. */
    method Run(rounds: seq<seq<Message>>)
      requires PartsOk() && RunOk(config, View(), RunEvents(rounds))
      modifies this, runner, runner.kv, scheduler, scheduler.manager, scheduler.manager.blocks, scheduler.Nodes()
      ensures PartsOk() && View() == After(config, world, old(View()), RunEvents(rounds))
    {
      hide S.Scheduler.Valid, S.Scheduler.View, RunOk, Good, After, Stepping, PartsOk, View;
      assert rounds[0..] == rounds;
      for k := 0 to |rounds|
        invariant PartsOk() && RunOk(config, View(), RunEvents(rounds[k..]))
        invariant After(config, world, View(), RunEvents(rounds[k..]))
                  == After(config, world, old(View()), RunEvents(rounds))
        invariant forall n :: n in scheduler.Nodes() ==> n in old(scheduler.Nodes()) || fresh(n)
      {
        ghost var later := RunEvents(rounds[k + 1..]);
        assert rounds[k..][0] == rounds[k] && rounds[k..][1..] == rounds[k + 1..];
        RoundNext(rounds[k..]);
        ghost var rest := if ShutdownMessage in rounds[k] then [] else [Event.Step] + later;
        var more := ProcessInputs(rounds[k], rest);
        if !more {
          AfterNothing(config, world, View());
          return;
        }
        StepIs(config, world, View(), later);
        assert forall i :: 0 <= i < |scheduler.Nodes()| ==>
                 scheduler.Nodes()[i] in old(scheduler.Nodes()) || fresh(scheduler.Nodes()[i]);
        Step();
      }
      assert rounds[|rounds|..] == [];
      AfterNothing(config, world, View());
    }
  }

  /** Start-up refuses a pool that cannot hold one request of maximal length. */
  method Launch(c: Config, w: World) returns (core: EngineCore?)
    ensures core == null <==> c.numBlocks * c.blockSize < c.maxModelLen
    ensures core != null ==> core.Valid() && core.config == c && core.world == w && core.View() == Start(c)
    ensures core != null ==>
              && fresh(core) && fresh(core.runner) && fresh(core.runner.kv) && fresh(core.scheduler)
              && fresh(core.scheduler.manager) && fresh(core.scheduler.manager.blocks) && core.scheduler.Nodes() == []
  {
    if c.numBlocks * c.blockSize < c.maxModelLen {
      return null;
    }
    core := new EngineCore(c, w);
  }

  /** What the frontend heard about a is what it would have heard had a been served alone, up
      to some point; all of it exactly if a is neither live nor aborted. */
  ghost predicate HeardSolo(c: Config, w: World, g: Engine, a: Arrival) {
    var heard, all := LogOf(g.log, a.id), SoloOutputs(c, w, Core(Lifecycle.Accept(a)));
    && Alone(c, w, a, heard)
    && heard <= all && (heard == all <==> Absent(Order(g.s), a.id) && a.id !in g.aborted)
  }

  /** a heard its own tokens in order, each with the reason its limits give; with a terminal
      output at the end exactly if it is neither live nor aborted, and none otherwise. */
  ghost predicate HeardInOrder(c: Config, w: World, g: Engine, a: Arrival) {
    var heard := LogOf(g.log, a.id);
    Heard(c, w, a, heard)
    && if Absent(Order(g.s), a.id) && a.id !in g.aborted then Closed(heard) else AllGoOn(heard)
  }

  /** Message k of round r is taken in: nothing before it, nor itself, is a shutdown. */
  ghost predicate Received(rounds: seq<seq<Message>>, r: nat, k: nat) {
    && r < |rounds| && k < |rounds[r]|
    && (forall q :: 0 <= q < r ==> ShutdownMessage !in rounds[q])
    && ShutdownMessage !in rounds[r][..k + 1]
  }

  /** The whole engine, from start-up on: whatever arrives when, and however the scheduler
      batches, chunks, preempts and shares, every request hears its tokens in order; and
      these are the lone decoder's if the hash tells apart the prefixes that occur. */
  method RunEngineCore(c: Config, w: World, rounds: seq<seq<Message>>) returns (core: EngineCore?)
    requires ArrivalsOk(c, RunEvents(rounds))
    ensures core == null <==> c.numBlocks * c.blockSize < c.maxModelLen
    ensures core != null ==>
              forall r: nat, k: nat :: Received(rounds, r, k) && rounds[r][k].AddMessage? ==>
                && HeardInOrder(c, w, core.View(), rounds[r][k].a)
                && (HashTrusted(c, Occurring(c, w, RunEvents(rounds))) ==>
                      HeardSolo(c, w, core.View(), rounds[r][k].a))
  {
    hide Good, RunOk, EngineCore.View, EngineCore.PartsOk, HashTrusted, ArrivalsOk, HeardSolo, HeardInOrder,
         Occurring, After, RunEvents;
    core := Launch(c, w);
    if core != null {
      StartRunOk(c, RunEvents(rounds));
      core.Run(rounds);
      forall r: nat, k: nat | Received(rounds, r, k) && rounds[r][k].AddMessage?
        ensures HeardInOrder(c, w, core.View(), rounds[r][k].a)
        ensures HashTrusted(c, Occurring(c, w, RunEvents(rounds))) ==> HeardSolo(c, w, core.View(), rounds[r][k].a)
      {
        var i := AddReceived(rounds, r, k);
        HearsInOrder(c, w, RunEvents(rounds), i);
        if HashTrusted(c, Occurring(c, w, RunEvents(rounds))) { HearsSolo(c, w, RunEvents(rounds), i); }
      }
    }
  }

  lemma HearsInOrder(c: Config, w: World, es: seq<Event>, i: nat)
    requires ArrivalsOk(c, es) && i < |es| && es[i].Add?
    ensures HeardInOrder(c, w, After(c, w, Start(c), es), es[i].a)
  {
    hide Good, Order, LogOf, Run, Heard, Closed, AllGoOn, Absent, RunOk, ArrivalsOk;
    OutputProtocol(c, w, es, i);
  }

  lemma HearsSolo(c: Config, w: World, es: seq<Event>, i: nat)
    requires ArrivalsOk(c, es) && HashTrusted(c, Occurring(c, w, es)) && i < |es| && es[i].Add?
    ensures HeardSolo(c, w, After(c, w, Start(c), es), es[i].a)
  {
    hide Good, HashTrusted, SoloOutputs, Order, Occurring, LogOf, Run, Alone, Closed, AllGoOn;
    EveryRunIsSolo(c, w, es, i);
  }

  lemma TakenFirst(messages: seq<Message>)
    requires messages != [] && !messages[0].ShutdownMessage?
    ensures Taken(messages) == EventsOf(messages[0]) + Taken(messages[1..])
  {
  }

  lemma SliceBehind<T>(a: seq<T>, b: seq<T>, i: nat, j: nat)
    requires i <= j <= |b|
    ensures (a + b)[|a| + i..|a| + j] == b[i..j]
  {
  }

  /** Where message k leaves its events among those taken in. */
  lemma {:induction false} TakenAt(messages: seq<Message>, k: nat) returns (at: nat)
    requires k < |messages| && ShutdownMessage !in messages[..k + 1]
    ensures at + |EventsOf(messages[k])| <= |Taken(messages)|
    ensures Taken(messages)[at..at + |EventsOf(messages[k])|] == EventsOf(messages[k])
  {
    hide Taken, EventsOf;
    assert messages[0] == messages[..k + 1][0];
    TakenFirst(messages);
    var es := EventsOf(messages[0]);
    if k == 0 {
      at := 0;
    } else {
      assert messages[1..][..k] == messages[..k + 1][1..];
      var rest := TakenAt(messages[1..], k - 1);
      at := |es| + rest;
      SliceBehind(es, Taken(messages[1..]), rest, rest + |EventsOf(messages[k])|);
    }
  }

  /** Whatever message is received, its events are part of the run. */
  lemma {:induction false} EventsReceived(rounds: seq<seq<Message>>, r: nat, k: nat) returns (at: nat)
    requires Received(rounds, r, k)
    ensures at + |EventsOf(rounds[r][k])| <= |RunEvents(rounds)|
    ensures RunEvents(rounds)[at..at + |EventsOf(rounds[r][k])|] == EventsOf(rounds[r][k])
  {
    hide EventsOf, Taken, RunEvents;
    RoundNext(rounds);
    if r == 0 {
      at := TakenAt(rounds[0], k);
    } else {
      assert Received(rounds[1..], r - 1, k);
      var rest := EventsReceived(rounds[1..], r - 1, k);
      at := |Taken(rounds[0]) + [Step]| + rest;
      SliceBehind(Taken(rounds[0]) + [Step], RunEvents(rounds[1..]), rest, rest + |EventsOf(rounds[r][k])|);
      assert RunEvents(rounds) == Taken(rounds[0]) + [Step] + RunEvents(rounds[1..]);
    }
  }

  /** And there are no others: whoever is added in the run was in a message taken in. */
  lemma {:induction false} AddFrom(rounds: seq<seq<Message>>, i: nat) returns (r: nat, k: nat)
    requires i < |RunEvents(rounds)| && RunEvents(rounds)[i].Add?
    ensures Received(rounds, r, k) && rounds[r][k] == AddMessage(RunEvents(rounds)[i].a)
  {
    hide Taken, RunEvents;
    NoRounds();
    RoundNext(rounds);
    var es := Taken(rounds[0]);
    if i < |es| {
      r := 0;
      k := AddTaken(rounds[0], i);
    } else {
      var later := RunEvents(rounds[1..]);
      assert RunEvents(rounds) == (es + [Step]) + later;
      var r', k' := AddFrom(rounds[1..], i - |es| - 1);
      r, k := r' + 1, k';
      forall q | 0 <= q < r
        ensures ShutdownMessage !in rounds[q]
      {
        if q > 0 { assert rounds[q] == rounds[1..][q - 1]; }
      }
    }
  }

  lemma NoRounds()
    ensures RunEvents([]) == []
  {
  }

  lemma {:induction false} AddTaken(messages: seq<Message>, i: nat) returns (k: nat)
    requires i < |Taken(messages)| && Taken(messages)[i].Add?
    ensures k < |messages| && ShutdownMessage !in messages[..k + 1] && messages[k] == AddMessage(Taken(messages)[i].a)
  {
    hide Taken;
    TakenStops(messages);
    TakenFirst(messages);
    var es := EventsOf(messages[0]);
    if i < |es| {
      k := 0;
    } else {
      var k' := AddTaken(messages[1..], i - |es|);
      k := k' + 1;
      assert messages[..k + 1] == [messages[0]] + messages[1..][..k' + 1];
    }
  }

  lemma TakenStops(messages: seq<Message>)
    ensures messages == [] || messages[0].ShutdownMessage? ==> Taken(messages) == []
  {
  }

  /** Each round without a shutdown takes one step; a round with one ends the run. */
  lemma {:induction false} OneStepARound(rounds: seq<seq<Message>>, r: nat)
    requires r <= |rounds| && (forall q :: 0 <= q < r ==> ShutdownMessage !in rounds[q])
    requires r == |rounds| || ShutdownMessage in rounds[r]
    ensures Steps(RunEvents(rounds)) == r
  {
    hide Taken, RunEvents;
    NoRounds();
    if rounds != [] {
      RoundNext(rounds);
      NoStepTaken(rounds[0]);
      if r > 0 {
        OneStepARound(rounds[1..], r - 1);
        var es, later := Taken(rounds[0]), RunEvents(rounds[1..]);
        assert Taken(rounds[0]) + ([Step] + later) == es + ([Step] + later);
        StepsJoin(es, [Step] + later);
        assert ([Step] + later)[1..] == later;
      } else {
        assert Taken(rounds[0]) + [] == Taken(rounds[0]);
      }
    }
  }

  lemma {:induction false} StepsJoin(es: seq<Event>, fs: seq<Event>)
    ensures Steps(es + fs) == Steps(es) + Steps(fs)
  {
    if es == [] {
      assert es + fs == fs;
    } else {
      assert (es + fs)[1..] == es[1..] + fs;
      StepsJoin(es[1..], fs);
    }
  }

  lemma {:induction false} NoStepTaken(messages: seq<Message>)
    ensures Steps(Taken(messages)) == 0
  {
    if messages != [] && !messages[0].ShutdownMessage? {
      NoStepTaken(messages[1..]);
      NoStepIn(messages[0]);
      StepsJoin(EventsOf(messages[0]), Taken(messages[1..]));
    }
  }

  lemma NoStepIn(m: Message)
    ensures Steps(EventsOf(m)) == 0
  {
    if m.AbortMessage? { NoStepAborting(m.ids); }
  }

  lemma {:induction false} NoStepAborting(ids: seq<Id>)
    ensures Steps(Aborts(ids)) == 0
  {
    if ids != [] {
      NoStepAborting(ids[1..]);
      assert Aborts(ids)[1..] == Aborts(ids[1..]);
    }
  }

  lemma AddReceived(rounds: seq<seq<Message>>, r: nat, k: nat) returns (i: nat)
    requires Received(rounds, r, k) && rounds[r][k].AddMessage?
    ensures i < |RunEvents(rounds)| && RunEvents(rounds)[i] == Add(rounds[r][k].a)
  {
    hide RunEvents;
    i := EventsReceived(rounds, r, k);
    assert RunEvents(rounds)[i..i + 1][0] == Add(rounds[r][k].a);
  }

  /** Each id of an abort message is aborted. */
  lemma AbortReceived(rounds: seq<seq<Message>>, r: nat, k: nat, j: nat) returns (i: nat)
    requires Received(rounds, r, k) && rounds[r][k].AbortMessage? && j < |rounds[r][k].ids|
    ensures i < |RunEvents(rounds)| && RunEvents(rounds)[i] == Abort(rounds[r][k].ids[j])
  {
    hide RunEvents;
    var at := EventsReceived(rounds, r, k);
    i := at + j;
    assert RunEvents(rounds)[at..at + |rounds[r][k].ids|][j] == Abort(rounds[r][k].ids[j]);
  }

  lemma RoundNext(rounds: seq<seq<Message>>)
    requires rounds != []
    ensures RunEvents(rounds) ==
              Taken(rounds[0]) + if ShutdownMessage in rounds[0] then [] else [Step] + RunEvents(rounds[1..])
  {
  }

  lemma AfterNothing(c: Config, w: World, g: Engine)
    ensures After(c, w, g, []) == g
  {
  }

  lemma TakenNext(messages: seq<Message>, rest: seq<Event>)
    requires messages != []
    ensures Taken(messages) + rest ==
              if messages[0].ShutdownMessage? then rest else EventsOf(messages[0]) + (Taken(messages[1..]) + rest)
  {
  }
}
