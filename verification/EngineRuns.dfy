/** Whole runs of the engine.  Whatever is batched, chunked, preempted, shared or evicted,
    the frontend hears what a decoder serving each request alone would say, and every
    request gets its turn. */
module EngineRuns {
  import opened Types
  import opened Arith
  import opened BlockStore
  import opened CachePool
  import opened PoolInvariant
  import opened PoolContent
  import opened Decoder
  import opened SchedulerModel
  import opened ScheduleStep
  import opened StepContent
  import opened Executor
  import opened Lifecycle
  import opened UpdateStep
  import opened EngineModel
  import opened History
  import opened Promises

  // ---------------------------------------------------------------- runs

  /** The structural invariant between steps; it does not depend on the hash function. */
  ghost predicate Good(c: Config, g: Engine) {
    && Inv(c, g.s, [])
    && |g.kv| == Span(c.blockSize, c.numBlocks)
    && (forall i :: 0 <= i < |Order(g.s)| ==> Order(g.s)[i].id in g.added)
  }

  function Start(c: Config): Engine {
    Engine(Initial(c), seq(Span(c.blockSize, c.numBlocks), _ => Blank), [], map[], {})
  }

  function StepEngine(c: Config, w: World, g: Engine): (g': Engine)
    requires Good(c, g)
    ensures g'.added == g.added && g'.aborted == g.aborted && |g'.kv| == |g.kv| && g.log <= g'.log
    ensures Delivering(c, g'.s, [])
  {
    hide Good, Delivering, AllAddressable;
    GoodInv(c, g);
    var (s, batch) := Schedule(c, g.s);
    BatchAddressable(c, s, g.kv, batch);
    var kv := ForwardAll(c, g.kv, batch, 0);
    BatchAddressable(c, s, kv, batch);
    StepDelivers(c, w, s, kv, batch);
    var (s', outs) := Update(c, s, SampleAll(c, w, kv, batch));
    g.(s := s', kv := kv, log := g.log + outs)
  }

  lemma GoodInv(c: Config, g: Engine)
    requires Good(c, g)
    ensures Inv(c, g.s, []) && |g.kv| == Span(c.blockSize, c.numBlocks)
  {
  }

  lemma OrderKnown(c: Config, g: Engine, i: nat)
    requires Good(c, g) && i < |Order(g.s)|
    ensures Order(g.s)[i].id in g.added
  {
    hide Inv, Order;
  }

  /** Request ids are unique and the frontend validated what it sends. */
  ghost predicate EventOk(c: Config, g: Engine, e: Event) {
    e.Add? ==> ArrivalOk(c, e.a) && e.a.id !in g.added
  }

  function AbortEngine(c: Config, g: Engine, id: Id): (g': Engine)
    requires Good(c, g)
    ensures g'.added == g.added
  {
    RemoveKeepsInv(c, g.s, id);
    if Rank(g.s, id) < |Order(g.s)| then g.(s := Remove(c, g.s, id), aborted := g.aborted + {id}) else g
  }

  function AddEngine(g: Engine, a: Arrival): (g': Engine)
    ensures g'.added.Keys == g.added.Keys + {a.id}
  {
    g.(s := AddRequest(g.s, a), added := g.added[a.id := Core(Accept(a))])
  }

  function Apply(c: Config, w: World, g: Engine, e: Event): (g': Engine)
    requires Good(c, g) && EventOk(c, g, e)
    ensures Good(c, g')
    ensures g'.added.Keys == g.added.Keys + if e.Add? then {e.a.id} else {}
  {
    hide Good, AddEngine, AbortEngine, StepEngine;
    match e
    case Add(a) => AddKeepsGood(c, g, a); AddEngine(g, a)
    case Abort(id) => AbortKeepsGood(c, g, id); AbortEngine(c, g, id)
    case Step => StepKeepsGood(c, w, g); StepEngine(c, w, g)
  }

  lemma AddKeepsGood(c: Config, g: Engine, a: Arrival)
    requires Good(c, g) && ArrivalOk(c, a) && a.id !in g.added
    ensures Good(c, AddEngine(g, a))
  {
    hide Inv, Order;
    assert Rank(g.s, a.id) == |Order(g.s)|;
    AddKeepsInv(c, g.s, a);
    AddOrder(g.s, a);
  }

  lemma AbortKeepsGood(c: Config, g: Engine, id: Id)
    requires Good(c, g)
    ensures Good(c, AbortEngine(c, g, id))
  {
    hide Inv, Order, Find;
    RemoveKeepsInv(c, g.s, id);
    InvNoDup(c, g.s, []);
    RemoveOrder(c, g.s, id);
  }

  lemma StepKeepsGood(c: Config, w: World, g: Engine)
    requires Good(c, g)
    ensures Good(c, StepEngine(c, w, g))
  {
    hide Inv, Order, Delivering, AllAddressable;
    var (s, batch) := Schedule(c, g.s);
    BatchAddressable(c, s, g.kv, batch);
    var kv := ForwardAll(c, g.kv, batch, 0);
    BatchAddressable(c, s, kv, batch);
    StepDelivers(c, w, s, kv, batch);
    UpdateKnown(c, s, SampleAll(c, w, kv, batch), g.added.Keys);
    DeliveredInv(c, StepEngine(c, w, g).s);
  }

  ghost predicate Known(order: seq<Request>, ids: set<Id>) {
    forall i :: 0 <= i < |order| ==> order[i].id in ids
  }

  lemma {:induction false} UpdateKnown(c: Config, s: State, rest: seq<Sampled>, ids: set<Id>)
    requires Delivering(c, s, rest) && Deliverable(s, rest) && Known(Order(s), ids)
    ensures Known(Order(Update(c, s, rest).0), ids)
    decreases |rest|
  {
    hide Delivering, Releasable, Order;
    if rest != [] {
      var i := Find(s.running, rest[0].id);
      FindsIt(s.running, rest[0].id);
      DeliverKeeps(c, s, rest, i);
      DeliverOrder(c, s, i, rest[0]);
      UpdateKnown(c, Deliver(c, s, i, rest[0]).0, rest[1..], ids);
    }
  }

  /** Delivery changes one place of the order: the request there grows or goes. */
  lemma DeliverOrder(c: Config, s: State, i: nat, x: Sampled)
    requires i < |s.running| && Releasable(c, s.pool, Grow(s.running[i], x.token))
    ensures i < |Order(s)| && Order(s)[i] == Core(s.running[i])
    ensures var (s', out) := Deliver(c, s, i, x);
            Order(s') == AfterOutput(Order(s), i, out)
  {
    hide Order, Releasable, Release;
    var s1 := s.(running := s.running[i := Grow(s.running[i], x.token)]);
    GrowOrder(s, i, x.token);
    RunningOrder(s, i);
    RemoveRunningOrder(c, s1, i);
    assert Delete(Order(s)[i := Grow(Order(s)[i], x.token)], i) == Delete(Order(s), i);
  }

  ghost predicate RunOk(c: Config, g: Engine, events: seq<Event>) {
    && Good(c, g)
    && (forall i :: 0 <= i < |events| && events[i].Add? ==> ArrivalOk(c, events[i].a) && events[i].a.id !in g.added)
    && (forall i, j :: 0 <= i < j < |events| && events[i].Add? && events[j].Add? ==> events[i].a.id != events[j].a.id)
  }

  lemma RunRest(c: Config, w: World, g: Engine, events: seq<Event>)
    requires RunOk(c, g, events) && events != []
    ensures Good(c, g) && EventOk(c, g, events[0]) && RunOk(c, Apply(c, w, g, events[0]), events[1..])
  {
    hide Good, Apply;
    assert EventOk(c, g, events[0]);
    var g' := Apply(c, w, g, events[0]);
    forall i | 0 <= i < |events[1..]| && events[1..][i].Add?
      ensures events[1..][i].a.id !in g'.added
    {
      assert events[1..][i] == events[i + 1];
      assert events[1..][i].a.id !in g'.added.Keys;
    }
  }

  function Run(c: Config, w: World, g: Engine, events: seq<Event>): (g': Engine)
    requires RunOk(c, g, events)
    ensures Good(c, g')
    decreases |events|
  {
    if events == [] then g
    else
      RunRest(c, w, g, events);
      Run(c, w, Apply(c, w, g, events[0]), events[1..])
  }

  lemma StartGood(c: Config)
    ensures Good(c, Start(c))
  {
    var s := Initial(c);
    assert s.pool.tables == map[];
    assert Held(s.pool.tables) == multiset{};
    FreshFree(c.numBlocks);
  }

  lemma {:induction false} FreshFree(n: nat)
    ensures var m := multiset(Upto(n)); forall b: nat :: m[b] == if b < n then 1 else 0
  {
    if n > 0 {
      FreshFree(n - 1);
      assert Upto(n) == Upto(n - 1) + [n - 1];
    }
  }

  // ---------------------------------------------------------------- refinement

  /** The prompt of a request and what has been sent of it. */
  ghost function Spoken(added: map<Id, Request>, log: seq<Output>, id: Id): seq<Token>
    requires id in added
  {
    added[id].tokens + TokensOf(LogOf(log, id))
  }

  ghost predicate Covered(U: iset<seq<Token>>, added: map<Id, Request>, log: seq<Output>) {
    forall id :: id in added ==> Spoken(added, log, id) in U
  }

  lemma CoveredBefore(
    U: iset<seq<Token>>, added: map<Id, Request>, log: seq<Output>, added': map<Id, Request>, log': seq<Output>)
    requires PrefixClosed(U) && Covered(U, added', log') && log <= log'
    requires forall id :: id in added ==> id in added' && added'[id] == added[id]
    ensures Covered(U, added, log)
  {
    hide LogOf;
    assert log' == log + log'[|log|..];
    forall id | id in added
      ensures Spoken(added, log, id) in U
    {
      LogGrows(log, log'[|log|..], id);
      assert Spoken(added, log, id) <= Spoken(added', log', id);
    }
  }

  /** The engine's state and its log agree with the lone decoder on every request. */
  ghost predicate Faithful(c: Config, w: World, U: iset<seq<Token>>, g: Engine) {
    && Good(c, g)
    && Content(c, g.s, g.kv, U, Computed(g.s))
    && Consistent(c, w, Order(g.s), g.log, g.added, g.aborted)
  }

  ghost predicate AllSolo(w: World, s: State, rest: seq<Sampled>) {
    forall k, i :: 0 <= k < |rest| && 0 <= i < |s.running| && s.running[i].id == rest[k].id ==>
      rest[k] == Sampled(s.running[i].id, NextToken(w, s.running[i]), w.isEos(NextToken(w, s.running[i])))
  }

  lemma CoreNext(c: Config, w: World, r: Request)
    ensures var t := NextToken(w, r);
            NextOutput(c, w, Core(r)) == Output(r.id, t, FinishReason(c, Grow(r, t), w.isEos(t)))
  {
  }

  lemma DeliverKeepsFaithful(
    c: Config, w: World, s: State, kv: seq<KV>, U: iset<seq<Token>>, log: seq<Output>,
    added: map<Id, Request>, aborted: set<Id>, rest: seq<Sampled>, i: nat)
    requires Universe(c, U) && Delivering(c, s, rest) && Deliverable(s, rest) && rest != []
    requires i < |s.running| && s.running[i].id == rest[0].id && AllSolo(w, s, rest)
    requires Content(c, s, kv, U, Computed(s)) && Consistent(c, w, Order(s), log, added, aborted)
    requires Releasable(c, s.pool, Grow(s.running[i], rest[0].token))
    requires Covered(U, added, log + [Deliver(c, s, i, rest[0]).1])
    ensures var (s', out) := Deliver(c, s, i, rest[0]);
            && Content(c, s', kv, U, Computed(s'))
            && Consistent(c, w, Order(s'), log + [out], added, aborted)
            && AllSolo(w, s', rest[1..])
  {
    hide Delivering, Content, Consistent, Covered, Releasable, Order, NextToken, NextOutput, FinishReason, Universe;
    DeliverKeeps(c, s, rest, i);
    DeliverOrder(c, s, i, rest[0]);
    CoreNext(c, w, s.running[i]);
    DeliveringNoDup(c, s, rest);
    DeliverKeepsConsistent(c, w, Order(s), log, added, aborted, i);
    GrownInUniverse(c, w, U, Order(s), log, added, aborted, i);
    DeliverKeepsContent(c, s, kv, U, rest, i);
    var (s', out) := Deliver(c, s, i, rest[0]);
    forall k, j | 0 <= k < |rest[1..]| && 0 <= j < |s'.running| && s'.running[j].id == rest[1..][k].id
      ensures var t := NextToken(w, s'.running[j]);
              rest[1..][k] == Sampled(s'.running[j].id, t, w.isEos(t))
    {
      var l := if out.reason == GoOn || j < i then j else j + 1;
      assert rest[1..][k] == rest[k + 1] && rest[k + 1].id != rest[0].id;
      assert l != i ==> s'.running[j] == s.running[l];
    }
  }

  lemma DeliveringNoDup(c: Config, s: State, rest: seq<Sampled>)
    requires Delivering(c, s, rest)
    ensures NoDup(Order(s))
  {
  }

  lemma GrownInUniverse(
    c: Config, w: World, U: iset<seq<Token>>, order: seq<Request>, log: seq<Output>,
    added: map<Id, Request>, aborted: set<Id>, i: nat)
    requires Consistent(c, w, order, log, added, aborted) && i < |order|
    requires Covered(U, added, log + [NextOutput(c, w, order[i])])
    ensures Grow(order[i], NextOutput(c, w, order[i]).token).tokens in U
  {
    hide SoloOutputs, NextOutput, LogOf;
    var r, out := order[i], NextOutput(c, w, order[i]);
    NextOutputId(c, w, r);
    assert Tracked(c, w, added[r.id], r, LogOf(log, r.id));
    LogSnoc(log, out, r.id);
    TokensSnoc(LogOf(log, r.id), out);
    assert Spoken(added, log + [out], r.id) == Grow(r, out.token).tokens;
  }

  lemma {:induction false} UpdateKeepsFaithful(
    c: Config, w: World, s: State, kv: seq<KV>, U: iset<seq<Token>>, log: seq<Output>,
    added: map<Id, Request>, aborted: set<Id>, rest: seq<Sampled>)
    requires Universe(c, U) && Delivering(c, s, rest) && Deliverable(s, rest) && AllSolo(w, s, rest)
    requires Content(c, s, kv, U, Computed(s)) && Consistent(c, w, Order(s), log, added, aborted)
    requires Covered(U, added, log + Update(c, s, rest).1)
    ensures var (s', outs) := Update(c, s, rest);
            Content(c, s', kv, U, Computed(s')) && Consistent(c, w, Order(s'), log + outs, added, aborted)
    decreases |rest|
  {
    hide Delivering, Deliverable, AllSolo, Content, Consistent, Covered, Universe, Releasable, Order, Deliver;
    if rest == [] {
      assert log + [] == log;
    } else {
      var i := FirstRunning(s, rest);
      DeliverKeeps(c, s, rest, i);
      var (s1, out) := Deliver(c, s, i, rest[0]);
      var outs := Update(c, s1, rest[1..]).1;
      assert (log + [out]) + outs == log + ([out] + outs);
      UniverseClosed(c, U);
      CoveredBefore(U, added, log + [out], added, (log + [out]) + outs);
      DeliverKeepsFaithful(c, w, s, kv, U, log, added, aborted, rest, i);
      UpdateKeepsFaithful(c, w, s1, kv, U, log + [out], added, aborted, rest[1..]);
    }
  }

  lemma UniverseClosed(c: Config, U: iset<seq<Token>>)
    requires Universe(c, U)
    ensures PrefixClosed(U)
  {
  }

  lemma FirstRunning(s: State, rest: seq<Sampled>) returns (i: nat)
    requires Deliverable(s, rest) && rest != []
    ensures i == Find(s.running, rest[0].id) < |s.running| && s.running[i].id == rest[0].id
  {
    FindsIt(s.running, rest[0].id);
    i := Find(s.running, rest[0].id);
  }

  /** The sampled tokens are the lone decoder's. */
  lemma SampledAllSolo(c: Config, w: World, s: State, kv: seq<KV>, U: iset<seq<Token>>, batch: seq<Scheduled>)
    requires Inv(c, s, batch) && Content(c, s, kv, U, Computed(s)) && AllAddressable(c, kv, batch)
    ensures AllSolo(w, s, SampleAll(c, w, kv, batch))
  {
    hide Inv, Content, NextToken, SampleOne, AllAddressable, SampleAll;
    SampledFrom(c, w, kv, batch);
    BatchIds(c, s, batch);
    var xs := SampleAll(c, w, kv, batch);
    forall k, i | 0 <= k < |xs| && 0 <= i < |s.running| && s.running[i].id == xs[k].id
      ensures xs[k] == Sampled(s.running[i].id, NextToken(w, s.running[i]), w.isEos(NextToken(w, s.running[i])))
    {
      assert From(c, w, kv, batch, xs[k]);
      var j :| SampleOf(c, w, kv, batch, xs[k], j);
      SampledIsSolo(c, w, s, kv, U, batch, j);
      if i != j { IdsDistinct(c, s, batch, i, j); }
    }
  }

  lemma StepKeepsFaithful(c: Config, w: World, U: iset<seq<Token>>, g: Engine)
    requires Universe(c, U) && Faithful(c, w, U, g) && Covered(U, g.added, StepEngine(c, w, g).log)
    ensures Faithful(c, w, U, StepEngine(c, w, g))
  {
    hide Good, Inv, Universe, Content, Consistent, Covered, Order, Delivering, Deliverable, AllSolo, AllAddressable;
    hide Schedule, ForwardAll, SampleAll, Update;
    GoodInv(c, g);
    assert Dones(g.s, []) == Computed(g.s);
    ScheduleKeepsContent(c, g.s, g.kv, U);
    var (s, batch) := Schedule(c, g.s);
    RunKeepsContent(c, s, g.kv, U, batch);
    var kv := ForwardAll(c, g.kv, batch, 0);
    BatchAddressable(c, s, kv, batch);
    StepDelivers(c, w, s, kv, batch);
    SampledAllSolo(c, w, s, kv, U, batch);
    UpdateKeepsFaithful(c, w, s, kv, U, g.log, g.added, g.aborted, SampleAll(c, w, kv, batch));
    StepKeepsGood(c, w, g);
  }

  lemma AddKeepsFaithful(c: Config, w: World, U: iset<seq<Token>>, g: Engine, a: Arrival)
    requires Universe(c, U) && Faithful(c, w, U, g) && ArrivalOk(c, a) && a.id !in g.added
    requires Covered(U, AddEngine(g, a).added, g.log)
    ensures Faithful(c, w, U, AddEngine(g, a))
  {
    hide Good, Inv, Content, Consistent, Order, HashTrusted, Covered;
    AddKeepsGood(c, g, a);
    AddOrder(g.s, a);
    AddKeepsConsistent(c, w, Order(g.s), g.log, g.added, g.aborted, Core(Accept(a)));
    PromptIn(U, g, a);
    AddKeepsContent(c, g.s, g.kv, U, a);
  }

  lemma PromptIn(U: iset<seq<Token>>, g: Engine, a: Arrival)
    requires PrefixClosed(U) && Covered(U, AddEngine(g, a).added, g.log)
    ensures a.tokens in U
  {
    var added := AddEngine(g, a).added;
    assert a.id in added;
    assert a.tokens <= Spoken(added, g.log, a.id);
  }

  lemma AbortKeepsFaithful(c: Config, w: World, U: iset<seq<Token>>, g: Engine, id: Id)
    requires Universe(c, U) && Faithful(c, w, U, g)
    ensures Faithful(c, w, U, AbortEngine(c, g, id))
  {
    hide Good, Inv, Content, Consistent, Order, Covered, Universe, Removable, Remove;
    GoodInv(c, g);
    AbortKeepsGood(c, g, id);
    if Rank(g.s, id) < |Order(g.s)| {
      InvNoDup(c, g.s, []);
      RemoveKeepsContent(c, g.s, g.kv, U, id);
      RemoveOrder(c, g.s, id);
      AbortKeepsConsistent(c, w, Order(g.s), g.log, g.added, g.aborted, Rank(g.s, id));
    }
  }

  lemma {:induction false} RunKeepsFaithful(c: Config, w: World, U: iset<seq<Token>>, g: Engine, events: seq<Event>)
    requires Universe(c, U) && Faithful(c, w, U, g) && RunOk(c, g, events)
    requires Covered(U, Run(c, w, g, events).added, Run(c, w, g, events).log)
    ensures Faithful(c, w, U, Run(c, w, g, events))
    decreases |events|
  {
    hide Universe, Faithful, Good, Covered, Apply;
    if events != [] {
      RunRest(c, w, g, events);
      var g' := Apply(c, w, g, events[0]);
      RunGrows(c, w, g', events[1..]);
      UniverseClosed(c, U);
      CoveredBefore(U, g'.added, g'.log, Run(c, w, g', events[1..]).added, Run(c, w, g', events[1..]).log);
      ApplyKeepsFaithful(c, w, U, g, events[0]);
      RunKeepsFaithful(c, w, U, g', events[1..]);
    }
  }

  lemma ApplyKeepsFaithful(c: Config, w: World, U: iset<seq<Token>>, g: Engine, e: Event)
    requires Universe(c, U) && Faithful(c, w, U, g) && Good(c, g) && EventOk(c, g, e)
    requires Covered(U, Apply(c, w, g, e).added, Apply(c, w, g, e).log)
    ensures Faithful(c, w, U, Apply(c, w, g, e))
  {
    hide Universe, Faithful, Good, Covered, StepEngine;
    match e {
      case Add(a) => AddKeepsFaithful(c, w, U, g, a);
      case Abort(id) => AbortKeepsFaithful(c, w, U, g, id);
      case Step => StepKeepsFaithful(c, w, U, g);
    }
  }

  /** A run only adds to what was accepted and to what was sent. */
  lemma {:induction false} RunGrows(c: Config, w: World, g: Engine, events: seq<Event>)
    requires RunOk(c, g, events)
    ensures g.log <= Run(c, w, g, events).log
    ensures forall id :: id in g.added ==>
              id in Run(c, w, g, events).added && Run(c, w, g, events).added[id] == g.added[id]
    decreases |events|
  {
    hide Good, Apply;
    if events != [] {
      RunRest(c, w, g, events);
      ApplyGrows(c, w, g, events[0]);
      RunGrows(c, w, Apply(c, w, g, events[0]), events[1..]);
    }
  }

  lemma ApplyGrows(c: Config, w: World, g: Engine, e: Event)
    requires Good(c, g) && EventOk(c, g, e)
    ensures g.log <= Apply(c, w, g, e).log
    ensures forall id :: id in g.added ==> id in Apply(c, w, g, e).added && Apply(c, w, g, e).added[id] == g.added[id]
  {
    hide Good, StepEngine;
  }

  // ---------------------------------------------------------------- the main theorem

  /** All arrivals of a run are valid and have different ids. */
  ghost predicate ArrivalsOk(c: Config, events: seq<Event>) {
    && (forall i :: 0 <= i < |events| && events[i].Add? ==> ArrivalOk(c, events[i].a))
    && (forall i, j :: 0 <= i < j < |events| && events[i].Add? && events[j].Add? ==> events[i].a.id != events[j].a.id)
  }

  /** P begins the prompt of an accepted request and what has been sent of it. */
  ghost predicate Occurs(g: Engine, P: seq<Token>) {
    exists id :: id in g.added && P <= Spoken(g.added, g.log, id)
  }

  ghost function Prefixes(g: Engine): iset<seq<Token>> {
    iset P | Occurs(g, P)
  }

  /** The prefixes that occur in a run: of prompts that arrived and tokens that were sent. */
  ghost function Occurring(c: Config, w: World, events: seq<Event>): iset<seq<Token>>
    requires ArrivalsOk(c, events)
  {
    StartRunOk(c, events);
    Prefixes(Run(c, w, Start(c), events))
  }

  lemma PrefixesClosed(g: Engine)
    ensures PrefixClosed(Prefixes(g)) && Covered(Prefixes(g), g.added, g.log)
  {
    hide Spoken;
    forall P, Q | Q in Prefixes(g) && P <= Q
      ensures P in Prefixes(g)
    {
      var id :| id in g.added && Q <= Spoken(g.added, g.log, id);
      assert P <= Spoken(g.added, g.log, id);
    }
  }

  lemma StartRunOk(c: Config, events: seq<Event>)
    requires ArrivalsOk(c, events)
    ensures RunOk(c, Start(c), events)
  {
    hide Good;
    StartGood(c);
  }

  lemma StartFaithful(c: Config, w: World, U: iset<seq<Token>>)
    ensures Faithful(c, w, U, Start(c))
  {
    StartGood(c);
    hide Good;
  }

  lemma {:induction false} RunAddsArrival(c: Config, w: World, g: Engine, events: seq<Event>, i: nat)
    requires RunOk(c, g, events) && i < |events| && events[i].Add?
    ensures var r := Core(Accept(events[i].a));
            r.id in Run(c, w, g, events).added && Run(c, w, g, events).added[r.id] == r
    decreases |events|
  {
    hide Good, StepEngine;
    RunRest(c, w, g, events);
    var g' := Apply(c, w, g, events[0]);
    if i == 0 {
      RunGrows(c, w, g', events[1..]);
    } else {
      assert events[1..][i - 1] == events[i];
      RunAddsArrival(c, w, g', events[1..], i - 1);
    }
  }

  /** Batching, chunking, preemption, sharing and eviction are invisible: in every run, what
      the frontend hears about a request is what it would hear if it were served alone, up to
      some point; it is all of it once the request is neither live nor aborted.  The only
      hypothesis about the hash is that it tells apart the prefixes that occur. */
  lemma EveryRunIsSolo(c: Config, w: World, events: seq<Event>, i: nat)
    requires ArrivalsOk(c, events) && HashTrusted(c, Occurring(c, w, events))
    requires i < |events| && events[i].Add?
    ensures RunOk(c, Start(c), events)
    ensures var g := Run(c, w, Start(c), events);
            var r := Core(Accept(events[i].a));
            var heard := LogOf(g.log, r.id);
            && heard <= SoloOutputs(c, w, r)
            && (Absent(Order(g.s), r.id) && r.id !in g.aborted ==> heard == SoloOutputs(c, w, r))
            && (!Absent(Order(g.s), r.id) || r.id in g.aborted ==> heard < SoloOutputs(c, w, r))
    ensures var g, a := Run(c, w, Start(c), events), events[i].a;
            var heard := LogOf(g.log, a.id);
            && Alone(c, w, a, heard)
            && if Absent(Order(g.s), a.id) && a.id !in g.aborted then Closed(heard) else AllGoOn(heard)
  {
    hide Good, Run, SoloOutputs, HashTrusted, Order, Content, Prefixes, Alone, Closed, AllGoOn, Absent, LogOf;
    SoloIsAlone(c, w, events[i].a);
    StartRunOk(c, events);
    EveryRunFaithful(c, w, events);
    RunAddsArrival(c, w, Start(c), events, i);
    var g, r := Run(c, w, Start(c), events), Core(Accept(events[i].a));
    ConsistentHeard(c, w, Order(g.s), g.log, g.added, g.aborted, r.id);
    AlonePrefix(c, w, events[i].a, LogOf(g.log, r.id), SoloOutputs(c, w, r));
  }

  lemma EveryRunFaithful(c: Config, w: World, events: seq<Event>)
    requires ArrivalsOk(c, events) && HashTrusted(c, Occurring(c, w, events))
    ensures RunOk(c, Start(c), events)
    ensures Faithful(c, w, Occurring(c, w, events), Run(c, w, Start(c), events))
  {
    hide Good, Run, HashTrusted, Faithful, Prefixes, RunOk;
    StartRunOk(c, events);
    var U := Occurring(c, w, events);
    PrefixesClosed(Run(c, w, Start(c), events));
    StartFaithful(c, w, U);
    RunKeepsFaithful(c, w, U, Start(c), events);
  }

  lemma ConsistentHeard(
    c: Config, w: World, order: seq<Request>, log: seq<Output>, added: map<Id, Request>, aborted: set<Id>, id: Id)
    requires Consistent(c, w, order, log, added, aborted) && id in added
    ensures var heard, all := LogOf(log, id), SoloOutputs(c, w, added[id]);
            && heard <= all
            && (Absent(order, id) && id !in aborted ==> heard == all)
            && (!Absent(order, id) || id in aborted ==> heard < all)
  {
    hide LogOf, SoloOutputs, SoloTranscript;
    if !Absent(order, id) {
      var i :| 0 <= i < |order| && order[i].id == id;
      AbortOne(c, w, added[id], order[i], LogOf(log, id));
    }
  }
}
