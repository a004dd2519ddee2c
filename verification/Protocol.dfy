/** What the frontend may rely on in every run, whatever the hash function: the outputs of a
    request are its tokens, in order, with a finish reason at the end and nothing after it. */
module Protocol {
  import opened Types
  import opened CachePool
  import opened Decoder
  import opened SchedulerModel
  import opened ScheduleStep
  import opened Executor
  import opened Lifecycle
  import opened UpdateStep
  import opened EngineModel
  import opened History
  import opened Promises
  import opened EngineRuns

  // ---------------------------------------------------------------- what one output says

  /** The token was drawn for a after a context of n entries. */
  ghost predicate Drawn(w: World, a: Request, n: nat, token: Token) {
    exists context: seq<KV> :: |context| == n && token == w.next(a.id, context, a.params)
  }

  /** Output k is the token drawn after the prompt and the k tokens sent before it, and its
      reason is the one these tokens give. */
  ghost predicate ToldAt(c: Config, w: World, a: Request, heard: seq<Output>, k: nat)
    requires k < |heard|
  {
    && heard[k].id == a.id && Drawn(w, a, |a.tokens| + k, heard[k].token)
    && heard[k].reason ==
         FinishReason(c, a.(tokens := a.tokens + TokensOf(heard[..k + 1])), w.isEos(heard[k].token))
  }

  ghost predicate Told(c: Config, w: World, a: Request, heard: seq<Output>) {
    forall k: nat :: k < |heard| ==> ToldAt(c, w, a, heard, k)
  }

  /** A live request has the prompt and exactly what was sent as its tokens. */
  ghost predicate Underway(c: Config, w: World, a: Request, r: Request, heard: seq<Output>) {
    Told(c, w, a, heard) && AllGoOn(heard) && r == a.(tokens := a.tokens + TokensOf(heard))
  }

  ghost predicate Ended(c: Config, w: World, a: Request, heard: seq<Output>, aborted: bool) {
    Told(c, w, a, heard) && if aborted then AllGoOn(heard) else Closed(heard)
  }

  ghost function ProtocolStory(c: Config, w: World): Story {
    Story((a, r, heard) => Underway(c, w, a, r, heard), (a, heard, aborted) => Ended(c, w, a, heard, aborted))
  }

  ghost predicate Orderly(c: Config, w: World, g: Engine) {
    Ledger(ProtocolStory(c, w), Order(g.s), g.log, g.added, g.aborted)
  }

  lemma ToldMore(c: Config, w: World, a: Request, heard: seq<Output>, out: Output)
    requires Told(c, w, a, heard) && ToldAt(c, w, a, heard + [out], |heard|)
    ensures Told(c, w, a, heard + [out])
  {
    hide Drawn, FinishReason;
    forall k: nat | k < |heard|
      ensures ToldAt(c, w, a, heard + [out], k)
    {
      assert ToldAt(c, w, a, heard, k);
      assert (heard + [out])[..k + 1] == heard[..k + 1];
    }
  }

  /** One more token drawn for a live request continues its story or ends it. */
  lemma Hear(c: Config, w: World, a: Request, r: Request, heard: seq<Output>, token: Token)
    requires Underway(c, w, a, r, heard) && Drawn(w, r, |r.tokens|, token)
    ensures var out := Output(r.id, token, FinishReason(c, Grow(r, token), w.isEos(token)));
            if out.reason == GoOn then Underway(c, w, a, Grow(r, token), heard + [out])
            else Ended(c, w, a, heard + [out], false)
  {
    hide Told, FinishReason, Drawn;
    var out := Output(r.id, token, FinishReason(c, Grow(r, token), w.isEos(token)));
    TokensSnoc(heard, out);
    assert (heard + [out])[..|heard| + 1] == heard + [out];
    assert Grow(r, token) == a.(tokens := a.tokens + TokensOf(heard + [out]));
    SameDraw(w, r, a, |r.tokens|, token);
    assert ToldAt(c, w, a, heard + [out], |heard|);
    ToldMore(c, w, a, heard, out);
  }

  lemma SameDraw(w: World, r: Request, a: Request, n: nat, token: Token)
    requires Drawn(w, r, n, token) && r.id == a.id && r.params == a.params
    ensures Drawn(w, a, n, token)
  {
  }

  // ---------------------------------------------------------------- delivery

  /** The sampled token was drawn for r at its present length. */
  ghost predicate DrawnFor(w: World, r: Request, x: Sampled) {
    x.id == r.id && x.eos == w.isEos(x.token) && Drawn(w, r, |r.tokens|, x.token)
  }

  ghost predicate AllDrawn(w: World, s: State, rest: seq<Sampled>) {
    forall k, i :: 0 <= k < |rest| && 0 <= i < |s.running| && s.running[i].id == rest[k].id ==>
      DrawnFor(w, s.running[i], rest[k])
  }

  lemma SampledAllDrawn(c: Config, w: World, s: State, kv: seq<KV>, batch: seq<Scheduled>)
    requires Inv(c, s, batch) && AllAddressable(c, kv, batch)
    ensures AllDrawn(w, s, SampleAll(c, w, kv, batch))
  {
    hide Inv, DrawnFor, SampleOne, AllAddressable, SampleAll;
    SampledFrom(c, w, kv, batch);
    BatchIds(c, s, batch);
    var xs := SampleAll(c, w, kv, batch);
    forall k, i | 0 <= k < |xs| && 0 <= i < |s.running| && s.running[i].id == xs[k].id
      ensures DrawnFor(w, s.running[i], xs[k])
    {
      assert From(c, w, kv, batch, xs[k]);
      var j :| SampleOf(c, w, kv, batch, xs[k], j);
      SampleDrawn(c, w, s, kv, batch, j);
      SampleId(c, w, kv, batch[j]);
      if i != j { IdsDistinct(c, s, batch, i, j); }
    }
  }

  lemma SampleDrawn(c: Config, w: World, s: State, kv: seq<KV>, batch: seq<Scheduled>, i: nat)
    requires Inv(c, s, batch) && i < |batch| && batch[i].needsSampling && Addressable(c, kv, batch[i])
    ensures i < |s.running| && DrawnFor(w, s.running[i], SampleOne(c, w, kv, batch[i]))
  {
    hide Base, Order;
    var r, e := s.running[i], batch[i];
    assert EntryOk(s.pool, r, e);
    assert |Read(c, kv, e.blocks, e.offset + |e.tokens|)| == |r.tokens|;
  }

  lemma DeliverKeepsDrawn(c: Config, w: World, s: State, rest: seq<Sampled>, i: nat)
    requires Delivering(c, s, rest) && Deliverable(s, rest) && rest != [] && AllDrawn(w, s, rest)
    requires i < |s.running| && s.running[i].id == rest[0].id
    requires Releasable(c, s.pool, Grow(s.running[i], rest[0].token))
    ensures AllDrawn(w, Deliver(c, s, i, rest[0]).0, rest[1..])
  {
    hide Delivering, Releasable, DrawnFor, FinishReason, Release;
    var (s', out) := Deliver(c, s, i, rest[0]);
    forall k, j | 0 <= k < |rest[1..]| && 0 <= j < |s'.running| && s'.running[j].id == rest[1..][k].id
      ensures DrawnFor(w, s'.running[j], rest[1..][k])
    {
      var l := if out.reason == GoOn || j < i then j else j + 1;
      assert rest[1..][k] == rest[k + 1] && rest[k + 1].id != rest[0].id;
      assert l != i ==> s'.running[j] == s.running[l];
    }
  }

  lemma DeliverKeepsLedger(
    c: Config, w: World, s: State, log: seq<Output>, added: map<Id, Request>, aborted: set<Id>,
    rest: seq<Sampled>, i: nat)
    requires Delivering(c, s, rest) && Deliverable(s, rest) && rest != [] && AllDrawn(w, s, rest)
    requires i < |s.running| && s.running[i].id == rest[0].id
    requires Ledger(ProtocolStory(c, w), Order(s), log, added, aborted)
    ensures Releasable(c, s.pool, Grow(s.running[i], rest[0].token))
    ensures var (s', out) := Deliver(c, s, i, rest[0]);
            Ledger(ProtocolStory(c, w), Order(s'), log + [out], added, aborted)
  {
    hide Delivering, Releasable, Release, Order, FinishReason, Drawn, Underway, Ended, NoDup, LogOf;
    DeliverKeeps(c, s, rest, i);
    DeliverOrder(c, s, i, rest[0]);
    DeliveringNoDup(c, s, rest);
    var r, x, out := Order(s)[i], rest[0], Deliver(c, s, i, rest[0]).1;
    assert DrawnFor(w, s.running[i], x);
    SameDraw(w, s.running[i], r, |r.tokens|, x.token);
    assert out == Output(r.id, x.token, FinishReason(c, Grow(r, x.token), w.isEos(x.token))) by {
      ReasonOfCore(c, s.running[i], x.token, x.eos);
    }
    assert Underway(c, w, added[r.id], r, LogOf(log, r.id));
    Hear(c, w, added[r.id], r, LogOf(log, r.id), x.token);
    OutputKeepsLedger(ProtocolStory(c, w), Order(s), log, added, aborted, i, out);
  }

  lemma ReasonOfCore(c: Config, r: Request, token: Token, eos: bool)
    ensures FinishReason(c, Grow(r, token), eos) == FinishReason(c, Grow(Core(r), token), eos)
  {
  }

  lemma {:induction false} UpdateKeepsLedger(
    c: Config, w: World, s: State, log: seq<Output>, added: map<Id, Request>, aborted: set<Id>, rest: seq<Sampled>)
    requires Delivering(c, s, rest) && Deliverable(s, rest) && AllDrawn(w, s, rest)
    requires Ledger(ProtocolStory(c, w), Order(s), log, added, aborted)
    ensures var (s', outs) := Update(c, s, rest);
            Ledger(ProtocolStory(c, w), Order(s'), log + outs, added, aborted)
    decreases |rest|
  {
    hide Delivering, Deliverable, AllDrawn, Ledger, ProtocolStory, Releasable, Order, Deliver;
    if rest == [] {
      assert log + [] == log;
    } else {
      var i := FirstRunning(s, rest);
      DeliverKeeps(c, s, rest, i);
      DeliverKeepsDrawn(c, w, s, rest, i);
      DeliverKeepsLedger(c, w, s, log, added, aborted, rest, i);
      var (s1, out) := Deliver(c, s, i, rest[0]);
      UpdateKeepsLedger(c, w, s1, log + [out], added, aborted, rest[1..]);
      assert log + [out] + Update(c, s1, rest[1..]).1 == log + ([out] + Update(c, s1, rest[1..]).1);
    }
  }

  // ---------------------------------------------------------------- steps and runs

  /** A step of the engine is the delivery of what it sampled to a state with the same
      live requests. */
  lemma StepIsUpdate(c: Config, w: World, g: Engine)
    returns (s: State, batch: seq<Scheduled>, kv: seq<KV>, xs: seq<Sampled>)
    requires Good(c, g)
    ensures Inv(c, g.s, []) && (s, batch) == Schedule(c, g.s) && Inv(c, s, batch) && Order(s) == Order(g.s)
    ensures AllAddressable(c, g.kv, batch) && kv == ForwardAll(c, g.kv, batch, 0)
    ensures AllAddressable(c, kv, batch) && xs == SampleAll(c, w, kv, batch)
    ensures Delivering(c, s, xs) && Deliverable(s, xs)
    ensures var (s', outs) := Update(c, s, xs);
            StepEngine(c, w, g) == g.(s := s', kv := kv, log := g.log + outs)
  {
    hide Good, Inv, Order, Delivering, Deliverable, AllAddressable, Schedule, ForwardAll, SampleAll, Update;
    GoodInv(c, g);
    s, batch := Schedule(c, g.s).0, Schedule(c, g.s).1;
    BatchAddressable(c, s, g.kv, batch);
    kv := ForwardAll(c, g.kv, batch, 0);
    BatchAddressable(c, s, kv, batch);
    xs := SampleAll(c, w, kv, batch);
    StepDelivers(c, w, s, kv, batch);
  }

  lemma StepKeepsOrderly(c: Config, w: World, g: Engine)
    requires Good(c, g) && Orderly(c, w, g)
    ensures Orderly(c, w, StepEngine(c, w, g))
  {
    hide Good, Inv, Ledger, ProtocolStory, Order, Delivering, Deliverable, AllDrawn, AllAddressable, Schedule,
         ForwardAll, SampleAll, Update;
    var s, batch, kv, xs := StepIsUpdate(c, w, g);
    SampledAllDrawn(c, w, s, kv, batch);
    UpdateKeepsLedger(c, w, s, g.log, g.added, g.aborted, xs);
  }

  lemma AddKeepsOrderly(c: Config, w: World, g: Engine, a: Arrival)
    requires Orderly(c, w, g) && a.id !in g.added
    ensures Orderly(c, w, AddEngine(g, a))
  {
    hide Order, Ledger;
    AddOrder(g.s, a);
    var r := Core(Accept(a));
    assert Underway(c, w, r, r, []);
    AddKeepsLedger(ProtocolStory(c, w), Order(g.s), g.log, g.added, g.aborted, r);
  }

  lemma AbortKeepsOrderly(c: Config, w: World, g: Engine, id: Id)
    requires Good(c, g) && Orderly(c, w, g)
    ensures Orderly(c, w, AbortEngine(c, g, id))
  {
    hide Good, Inv, Order, Removable, Remove, NoDup, Told, LogOf;
    GoodInv(c, g);
    RemoveKeepsInv(c, g.s, id);
    if Rank(g.s, id) < |Order(g.s)| {
      InvNoDup(c, g.s, []);
      RemoveOrder(c, g.s, id);
      var r := Order(g.s)[Rank(g.s, id)];
      assert Underway(c, w, g.added[r.id], r, LogOf(g.log, r.id));
      AbortKeepsLedger(ProtocolStory(c, w), Order(g.s), g.log, g.added, g.aborted, Rank(g.s, id));
    }
  }

  lemma {:induction false} RunKeepsOrderly(c: Config, w: World, g: Engine, events: seq<Event>)
    requires RunOk(c, g, events) && Orderly(c, w, g)
    ensures Orderly(c, w, Run(c, w, g, events))
    decreases |events|
  {
    hide Good, Orderly, StepEngine, AddEngine, AbortEngine;
    if events != [] {
      RunRest(c, w, g, events);
      match events[0] {
        case Add(a) => AddKeepsOrderly(c, w, g, a);
        case Abort(id) => AbortKeepsOrderly(c, w, g, id);
        case Step => StepKeepsOrderly(c, w, g);
      }
      RunKeepsOrderly(c, w, Apply(c, w, g, events[0]), events[1..]);
    }
  }

  lemma StartOrderly(c: Config, w: World)
    ensures Orderly(c, w, Start(c))
  {
    assert Order(Start(c).s) == [];
  }

  lemma EveryRunOrderly(c: Config, w: World, events: seq<Event>)
    requires ArrivalsOk(c, events)
    ensures RunOk(c, Start(c), events) && Orderly(c, w, Run(c, w, Start(c), events))
  {
    hide Good, RunOk, ArrivalsOk, Orderly;
    StartRunOk(c, events);
    StartOrderly(c, w);
    RunKeepsOrderly(c, w, Start(c), events);
  }

  // ---------------------------------------------------------------- silence

  lemma DeliverSilent(c: Config, s: State, rest: seq<Sampled>, i: nat, log: seq<Output>, id: Id)
    requires Delivering(c, s, rest) && Deliverable(s, rest) && rest != []
    requires i < |s.running| && s.running[i].id == rest[0].id && Absent(Order(s), id)
    ensures Releasable(c, s.pool, Grow(s.running[i], rest[0].token))
    ensures var (s', out) := Deliver(c, s, i, rest[0]);
            Absent(Order(s'), id) && LogOf(log + [out], id) == LogOf(log, id)
  {
    hide Delivering, Releasable, Release, Order, FinishReason, LogOf;
    DeliverKeeps(c, s, rest, i);
    DeliverOrder(c, s, i, rest[0]);
    LogSnoc(log, Deliver(c, s, i, rest[0]).1, id);
    assert Order(s)[i].id == rest[0].id;
  }

  lemma {:induction false} UpdateSilent(c: Config, s: State, rest: seq<Sampled>, log: seq<Output>, id: Id)
    requires Delivering(c, s, rest) && Deliverable(s, rest) && Absent(Order(s), id)
    ensures var (s', outs) := Update(c, s, rest);
            Absent(Order(s'), id) && LogOf(log + outs, id) == LogOf(log, id)
    decreases |rest|
  {
    hide Delivering, Deliverable, Absent, LogOf, Releasable, Order, Deliver;
    if rest == [] {
      assert log + [] == log;
    } else {
      var i := FirstRunning(s, rest);
      DeliverKeeps(c, s, rest, i);
      DeliverSilent(c, s, rest, i, log, id);
      var (s1, out) := Deliver(c, s, i, rest[0]);
      UpdateSilent(c, s1, rest[1..], log + [out], id);
      assert log + [out] + Update(c, s1, rest[1..]).1 == log + ([out] + Update(c, s1, rest[1..]).1);
    }
  }

  lemma ApplySilent(c: Config, w: World, g: Engine, e: Event, id: Id)
    requires Good(c, g) && EventOk(c, g, e) && id in g.added && Absent(Order(g.s), id)
    ensures var g' := Apply(c, w, g, e);
            Absent(Order(g'.s), id) && LogOf(g'.log, id) == LogOf(g.log, id)
  {
    hide Good, Inv, Order, Delivering, Deliverable, AllAddressable, LogOf, Schedule, ForwardAll, SampleAll, Update,
         Removable, Remove;
    match e {
      case Add(a) => AddOrder(g.s, a);
      case Abort(id') =>
        GoodInv(c, g);
        RemoveKeepsInv(c, g.s, id');
        InvNoDup(c, g.s, []);
        RemoveOrder(c, g.s, id');
      case Step =>
        var s, batch, kv, xs := StepIsUpdate(c, w, g);
        UpdateSilent(c, s, xs, g.log, id);
    }
  }

  /** A request that is gone stays gone, and nothing more is heard about it. */
  lemma {:induction false} GoneIsSilent(c: Config, w: World, g: Engine, events: seq<Event>, id: Id)
    requires RunOk(c, g, events) && id in g.added && Absent(Order(g.s), id)
    ensures var g' := Run(c, w, g, events);
            Absent(Order(g'.s), id) && LogOf(g'.log, id) == LogOf(g.log, id)
    decreases |events|
  {
    hide Good, Absent, LogOf, Order, Apply;
    if events != [] {
      RunRest(c, w, g, events);
      ApplySilent(c, w, g, events[0], id);
      assert id in Apply(c, w, g, events[0]).added.Keys;
      GoneIsSilent(c, w, Apply(c, w, g, events[0]), events[1..], id);
    }
  }
}
