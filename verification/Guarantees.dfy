/** The engine's promises to the frontend, over whole runs from start-up. */
module Guarantees {
  import opened Types
  import opened Arith
  import opened PoolContent
  import opened Decoder
  import opened SchedulerModel
  import opened ScheduleStep
  import opened StepTheorems
  import opened Lifecycle
  import opened UpdateStep
  import opened EngineModel
  import opened History
  import opened EngineRuns
  import opened Starvation
  import opened Promises
  import opened Protocol

  // ---------------------------------------------------------------- runs in two parts

  lemma {:induction false} RunSplit(c: Config, w: World, g: Engine, es: seq<Event>, fs: seq<Event>)
    requires RunOk(c, g, es + fs)
    ensures RunOk(c, g, es) && RunOk(c, Run(c, w, g, es), fs)
    ensures Run(c, w, g, es + fs) == Run(c, w, Run(c, w, g, es), fs)
    decreases |es|
  {
    hide Good, Apply;
    assert RunOk(c, g, es) by {
      assert forall i :: 0 <= i < |es| ==> es[i] == (es + fs)[i];
    }
    if es == [] {
      assert es + fs == fs;
    } else {
      RunRest(c, w, g, es + fs);
      RunRest(c, w, g, es);
      assert (es + fs)[1..] == es[1..] + fs;
      RunSplit(c, w, Apply(c, w, g, es[0]), es[1..], fs);
    }
  }

  // ---------------------------------------------------------------- promises

  lemma NotLiveAbsent(s: State, id: Id)
    ensures Live(s, id) <==> !Absent(Order(s), id)
  {
  }

  /** With p older live requests at its arrival, a request is gone after (p + 1) times the
      maximal length steps. */
  lemma GoneInTime(c: Config, w: World, before: seq<Event>, a: Arrival, after: seq<Event>)
    requires CapacityOk(c) && ArrivalsOk(c, before + [Add(a)] + after)
    ensures RunOk(c, Start(c), before) && RunOk(c, Start(c), before + [Add(a)] + after)
    ensures var older := |Order(Run(c, w, Start(c), before).s)|;
            Steps(after) >= (older + 1) * c.maxModelLen ==>
              Absent(Order(Run(c, w, Start(c), before + [Add(a)] + after).s), a.id)
  {
    hide Good, Apply, CapacityOk, Run, Order, ArrivalsOk, Absent;
    var events := before + [Add(a)] + after;
    assert events == before + ([Add(a)] + after);
    StartRunOk(c, events);
    RunSplit(c, w, Start(c), before, [Add(a)] + after);
    var g0 := Run(c, w, Start(c), before);
    if Steps(after) >= (|Order(g0.s)| + 1) * c.maxModelLen { ArrivalFinishes(c, w, g0, a, after); }
    NotLiveAbsent(Run(c, w, Start(c), events).s, a.id);
  }

  /** Every request is served: by then it has heard its whole lone run, unless the frontend
      aborted it. */
  lemma EveryRequestIsServed(c: Config, w: World, before: seq<Event>, a: Arrival, after: seq<Event>)
    requires CapacityOk(c) && ArrivalsOk(c, before + [Add(a)] + after)
    requires HashTrusted(c, Occurring(c, w, before + [Add(a)] + after))
    ensures RunOk(c, Start(c), before) && RunOk(c, Start(c), before + [Add(a)] + after)
    ensures var older := |Order(Run(c, w, Start(c), before).s)|;
            var g := Run(c, w, Start(c), before + [Add(a)] + after);
            Steps(after) >= (older + 1) * c.maxModelLen && a.id !in g.aborted ==>
              && LogOf(g.log, a.id) == SoloOutputs(c, w, Core(Accept(a)))
              && Alone(c, w, a, LogOf(g.log, a.id)) && Closed(LogOf(g.log, a.id))
  {
    hide Good, HashTrusted, SoloOutputs, CapacityOk, Run, Order, Occurring, ArrivalsOk, Absent, Alone, Closed, LogOf,
         AllGoOn;
    var events := before + [Add(a)] + after;
    assert events[|before|] == Add(a);
    EveryRunIsSolo(c, w, events, |before|);
    GoneInTime(c, w, before, a, after);
  }

  lemma ArrivalFinishes(c: Config, w: World, g: Engine, a: Arrival, after: seq<Event>)
    requires CapacityOk(c) && RunOk(c, g, [Add(a)] + after)
    requires Steps(after) >= (|Order(g.s)| + 1) * c.maxModelLen
    ensures !Live(Run(c, w, g, [Add(a)] + after).s, a.id)
  {
    hide Good, Order, CapacityOk;
    var events := [Add(a)] + after;
    RunRest(c, w, g, events);
    assert events[1..] == after;
    var g1 := AddEngine(g, a);
    if Live(Run(c, w, g1, after).s, a.id) {
      LiveMeansMeasure(c, w, g1, after, a.id);
      NewcomerMeasure(c, g, a);
    }
  }

  lemma FreshRank(c: Config, g: Engine, id: Id)
    requires Good(c, g) && id !in g.added
    ensures Find(Order(g.s), id) == |Order(g.s)|
  {
  }

  lemma NewcomerMeasure(c: Config, g: Engine, a: Arrival)
    requires Good(c, g) && a.id !in g.added
    ensures Measure(c, AddEngine(g, a).s, a.id) <= (|Order(g.s)| + 1) * c.maxModelLen
  {
    hide Good, Order, Find, Span;
    FreshRank(c, g, a.id);
    AddOrder(g.s, a);
    FindLast(Order(g.s), Core(Accept(a)));
    var n := |Order(g.s)|;
    SpanIsProduct(c.maxModelLen, n);
    assert (n + 1) * c.maxModelLen == n * c.maxModelLen + c.maxModelLen;
  }

  lemma {:induction false} FindLast(rs: seq<Request>, r: Request)
    requires Find(rs, r.id) == |rs|
    ensures Find(rs + [r], r.id) == |rs|
  {
    if rs != [] {
      assert (rs + [r])[1..] == rs[1..] + [r];
      FindLast(rs[1..], r);
    }
  }

  /** What has been heard stays right whatever collides later: the hash has to tell apart only
      the prefixes that occurred up to then. */
  lemma RightUntilCollision(c: Config, w: World, before: seq<Event>, after: seq<Event>, i: nat)
    requires ArrivalsOk(c, before) && ArrivalsOk(c, before + after) && HashTrusted(c, Occurring(c, w, before))
    requires i < |before| && before[i].Add?
    ensures RunOk(c, Start(c), before) && RunOk(c, Start(c), before + after)
    ensures var r := Core(Accept(before[i].a));
            var heard := LogOf(Run(c, w, Start(c), before).log, r.id);
            && heard <= SoloOutputs(c, w, r) && Alone(c, w, before[i].a, heard)
            && heard <= LogOf(Run(c, w, Start(c), before + after).log, r.id)
  {
    hide Good, HashTrusted, SoloOutputs, Run, Order, Occurring, ArrivalsOk, Absent, LogOf, RunOk, Alone, Closed,
         AllGoOn;
    EveryRunIsSolo(c, w, before, i);
    StartRunOk(c, before + after);
    RunSplit(c, w, Start(c), before, after);
    var g, g' := Run(c, w, Start(c), before), Run(c, w, Start(c), before + after);
    RunGrows(c, w, g, after);
    assert g'.log == g.log + g'.log[|g.log|..];
    LogGrows(g.log, g'.log[|g.log|..], Core(Accept(before[i].a)).id);
  }

  // ---------------------------------------------------------------- for any hash function

  /** In every run the tokens of each live request are its prompt followed by exactly what
      was sent. */
  lemma TokensAreHeard(c: Config, w: World, events: seq<Event>)
    requires ArrivalsOk(c, events)
    ensures RunOk(c, Start(c), events)
    ensures var g := Run(c, w, Start(c), events);
            forall i :: 0 <= i < |Order(g.s)| ==>
              var r := Order(g.s)[i];
              r.id in g.added && r.tokens == g.added[r.id].tokens + TokensOf(LogOf(g.log, r.id))
  {
    hide Good, Run, Order, Told, AllGoOn, RunOk, ArrivalsOk;
    EveryRunOrderly(c, w, events);
    var g := Run(c, w, Start(c), events);
    forall i | 0 <= i < |Order(g.s)|
      ensures var r := Order(g.s)[i];
              r.id in g.added && r.tokens == g.added[r.id].tokens + TokensOf(LogOf(g.log, r.id))
    {
      var r := Order(g.s)[i];
      assert Underway(c, w, g.added[r.id], r, LogOf(g.log, r.id));
    }
  }

  /** The record's story in the arrival's terms. */
  lemma ToldIsHeard(c: Config, w: World, a: Arrival, heard: seq<Output>)
    requires Told(c, w, Core(Accept(a)), heard)
    ensures Heard(c, w, a, heard)
  {
    hide FinishReason, Accept;
    RecordIs(a);
    forall k: nat | k < |heard|
      ensures HeardAt(c, w, a, heard, k)
    {
      assert ToldAt(c, w, Core(Accept(a)), heard, k);
      ReasonIs(c, a, TokensOf(heard[..k + 1]), w.isEos(heard[k].token));
    }
  }

  lemma OrderlyProtocol(c: Config, w: World, g: Engine, id: Id)
    requires Orderly(c, w, g) && id in g.added
    ensures var heard := LogOf(g.log, id);
            && Told(c, w, g.added[id], heard)
            && if Absent(Order(g.s), id) && id !in g.aborted then Closed(heard) else AllGoOn(heard)
  {
    hide Order, LogOf, Told, AllGoOn, Closed;
    if !Absent(Order(g.s), id) {
      var i :| 0 <= i < |Order(g.s)| && Order(g.s)[i].id == id;
      assert Underway(c, w, g.added[id], Order(g.s)[i], LogOf(g.log, id));
    } else {
      assert Ended(c, w, g.added[id], LogOf(g.log, id), id in g.aborted);
    }
  }

  /** The output protocol, in the fields of the arrival: each output carries a token drawn
      under its parameters after the prompt and the tokens sent before, with the reason that
      its limits and the end-of-sequence test give; a request that is neither live nor aborted
      heard exactly one terminal output, its last, any other heard none; and nobody hears more
      tokens than it asked for (but one at least), or than fit the model. */
  lemma OutputProtocol(c: Config, w: World, events: seq<Event>, i: nat)
    requires ArrivalsOk(c, events) && i < |events| && events[i].Add?
    ensures RunOk(c, Start(c), events)
    ensures var g, a := Run(c, w, Start(c), events), events[i].a;
            var heard := LogOf(g.log, a.id);
            && Heard(c, w, a, heard)
            && (if Absent(Order(g.s), a.id) && a.id !in g.aborted then Closed(heard) else AllGoOn(heard))
            && |a.tokens| + |heard| <= c.maxModelLen && (|heard| > 1 ==> |heard| <= a.maxOutput)
  {
    hide Good, Run, Order, LogOf, Told, RunOk, Orderly, Absent, Heard, Accept;
    EveryRunOrderly(c, w, events);
    RunAddsArrival(c, w, Start(c), events, i);
    var g, a := Run(c, w, Start(c), events), events[i].a;
    RecordIs(a);
    OrderlyProtocol(c, w, g, a.id);
    ToldIsHeard(c, w, a, LogOf(g.log, a.id));
    HeardLimits(c, w, a, LogOf(g.log, a.id));
  }

  /** A request that ignores the end of sequence hears, once it is through, exactly as many
      tokens as it asked for and the model can hold. */
  lemma NothingMissing(c: Config, w: World, events: seq<Event>, i: nat)
    requires ArrivalsOk(c, events) && i < |events| && events[i].Add? && events[i].a.ignoreEos
    ensures RunOk(c, Start(c), events)
    ensures var g, a := Run(c, w, Start(c), events), events[i].a;
            Absent(Order(g.s), a.id) && a.id !in g.aborted ==>
              |LogOf(g.log, a.id)| == Max(1, Min(a.maxOutput, c.maxModelLen - |a.tokens|))
  {
    hide Good, Run, Order, LogOf, RunOk, Absent, Heard, Closed;
    OutputProtocol(c, w, events, i);
    var g, a := Run(c, w, Start(c), events), events[i].a;
    if Absent(Order(g.s), a.id) && a.id !in g.aborted { FullLength(c, w, a, LogOf(g.log, a.id)); }
  }

  /** Every request comes to its end in time, whatever the hash function: by then it has
      heard exactly one terminal output, its last, unless the frontend aborted it. */
  lemma EveryRequestEnds(c: Config, w: World, before: seq<Event>, a: Arrival, after: seq<Event>)
    requires CapacityOk(c) && ArrivalsOk(c, before + [Add(a)] + after)
    ensures RunOk(c, Start(c), before) && RunOk(c, Start(c), before + [Add(a)] + after)
    ensures var older := |Order(Run(c, w, Start(c), before).s)|;
            var g := Run(c, w, Start(c), before + [Add(a)] + after);
            Steps(after) >= (older + 1) * c.maxModelLen && a.id !in g.aborted ==> Closed(LogOf(g.log, a.id))
  {
    hide Good, CapacityOk, Run, Order, ArrivalsOk, Absent, LogOf, Told, Closed, AllGoOn;
    var events := before + [Add(a)] + after;
    assert events[|before|] == Add(a);
    OutputProtocol(c, w, events, |before|);
    GoneInTime(c, w, before, a, after);
  }

  /** Nothing follows the end of a request: once it is neither waiting, preempted nor
      running, nothing more is ever heard about it. */
  lemma NothingFollows(c: Config, w: World, before: seq<Event>, after: seq<Event>, id: Id)
    requires ArrivalsOk(c, before + after)
    ensures RunOk(c, Start(c), before) && RunOk(c, Start(c), before + after)
    ensures var g, g' := Run(c, w, Start(c), before), Run(c, w, Start(c), before + after);
            id in g.added && Absent(Order(g.s), id) ==> LogOf(g'.log, id) == LogOf(g.log, id)
  {
    hide Good, Run, Order, ArrivalsOk, Absent, LogOf, RunOk;
    StartRunOk(c, before + after);
    RunSplit(c, w, Start(c), before, after);
    var g := Run(c, w, Start(c), before);
    if id in g.added && Absent(Order(g.s), id) { GoneIsSilent(c, w, g, after, id); }
  }

  /** So nothing follows an abort, whether or not it found the request still live. */
  lemma NothingAfterAbort(c: Config, w: World, before: seq<Event>, id: Id, after: seq<Event>)
    requires ArrivalsOk(c, before + [Abort(id)] + after)
    ensures RunOk(c, Start(c), before) && RunOk(c, Start(c), before + [Abort(id)] + after)
    ensures var g, g' := Run(c, w, Start(c), before), Run(c, w, Start(c), before + [Abort(id)] + after);
            id in g.added ==> LogOf(g'.log, id) == LogOf(g.log, id)
  {
    hide Good, Run, Order, ArrivalsOk, Absent, LogOf, RunOk, Apply;
    StartRunOk(c, before + [Abort(id)] + after);
    RunSplit(c, w, Start(c), before + [Abort(id)], after);
    RunSplit(c, w, Start(c), before, [Abort(id)]);
    var g := Run(c, w, Start(c), before);
    RunOfAbort(c, w, g, id);
    if id in g.added {
      AbortLeavesAbsent(c, g, id);
      GoneIsSilent(c, w, AbortEngine(c, g, id), after, id);
    }
  }

  lemma RunOfAbort(c: Config, w: World, g: Engine, id: Id)
    requires RunOk(c, g, [Abort(id)])
    ensures Good(c, g) && Run(c, w, g, [Abort(id)]) == AbortEngine(c, g, id)
  {
    hide Good;
    RunRest(c, w, g, [Abort(id)]);
    assert [Abort(id)][1..] == [];
  }

  lemma AbortLeavesAbsent(c: Config, g: Engine, id: Id)
    requires Good(c, g)
    ensures var g' := AbortEngine(c, g, id);
            Absent(Order(g'.s), id) && g'.log == g.log && g'.added == g.added
  {
    hide Good, Inv, Order, Removable, Remove;
    GoodInv(c, g);
    RemoveKeepsInv(c, g.s, id);
    InvNoDup(c, g.s, []);
    RemoveOrder(c, g.s, id);
    if Rank(g.s, id) < |Order(g.s)| {
      forall j | 0 <= j < |Order(g.s)| && j != Rank(g.s, id)
        ensures Order(g.s)[j].id != id
      {
      }
    }
  }

  /** Nor does anything follow a terminal output. */
  lemma NothingAfterEnd(c: Config, w: World, before: seq<Event>, after: seq<Event>, id: Id)
    requires ArrivalsOk(c, before + after)
    ensures RunOk(c, Start(c), before) && RunOk(c, Start(c), before + after)
    ensures var g, g' := Run(c, w, Start(c), before), Run(c, w, Start(c), before + after);
            !AllGoOn(LogOf(g.log, id)) ==> LogOf(g'.log, id) == LogOf(g.log, id)
  {
    hide Good, Run, Order, ArrivalsOk, Absent, LogOf, RunOk, Orderly;
    NothingFollows(c, w, before, after, id);
    BeforeOk(c, before, after);
    EveryRunOrderly(c, w, before);
    var g := Run(c, w, Start(c), before);
    if !AllGoOn(LogOf(g.log, id)) {
      HeardIsAdded(c, w, g, id);
      OrderlyProtocol(c, w, g, id);
    }
  }

  lemma BeforeOk(c: Config, before: seq<Event>, after: seq<Event>)
    requires ArrivalsOk(c, before + after)
    ensures ArrivalsOk(c, before)
  {
    assert forall i :: 0 <= i < |before| ==> before[i] == (before + after)[i];
  }

  lemma HeardIsAdded(c: Config, w: World, g: Engine, id: Id)
    requires Orderly(c, w, g) && LogOf(g.log, id) != []
    ensures id in g.added
  {
    hide Order;
    if id !in g.added { LogEmpty(g.log, id); }
  }
}
