/** Every run of the engine changes the pool by calls of the cache manager only, so it evicts
    the oldest blocks first. */
module EvictionRuns {
  import opened Types
  import opened CachePool
  import opened PoolInvariant
  import opened Decoder
  import opened SchedulerModel
  import opened ScheduleStep
  import opened Executor
  import opened Lifecycle
  import opened UpdateStep
  import opened EngineModel
  import opened EngineRuns
  import opened Protocol
  import opened Eviction

  // ---------------------------------------------------------------- composing traces

  ghost predicate Leads(c: Config, ps: seq<Pool>, p: Pool, p': Pool) {
    Trace(c, ps) && ps[0] == p && ps[|ps| - 1] == p'
  }

  ghost predicate Traced(c: Config, p: Pool, p': Pool) {
    exists ps :: Leads(c, ps, p, p')
  }

  lemma TracedSelf(c: Config, p: Pool)
    requires Sound(c, p)
    ensures Traced(c, p, p)
  {
    assert Leads(c, [p], p, p);
  }

  lemma TracedCall(c: Config, p: Pool, call: Call)
    requires CallOk(c, p, call) && Sound(c, p) && Sound(c, Called(c, p, call))
    ensures Traced(c, p, Called(c, p, call))
  {
    hide CallOk, Called, Sound;
    assert Move(c, p, Called(c, p, call));
    assert Leads(c, [p, Called(c, p, call)], p, Called(c, p, call));
  }

  lemma TracedThen(c: Config, p: Pool, q: Pool, r: Pool)
    requires Traced(c, p, q) && Traced(c, q, r)
    ensures Traced(c, p, r)
  {
    hide Move, Sound;
    var ps :| Leads(c, ps, p, q);
    var qs :| Leads(c, qs, q, r);
    var rs := ps + qs[1..];
    forall k | 1 <= k < |rs|
      ensures Move(c, rs[k - 1], rs[k])
    {
      if k < |ps| {
        assert Move(c, ps[k - 1], ps[k]);
      } else {
        var j := k - |ps| + 1;
        assert Move(c, qs[j - 1], qs[j]);
        assert rs[k] == qs[j] && rs[k - 1] == qs[j - 1];
      }
    }
    assert Leads(c, rs, p, r);
  }

  lemma BaseSound(c: Config, s: State, dones: seq<nat>)
    requires Base(c, s, dones)
    ensures Sound(c, s.pool) && PoolInBounds(s.pool)
  {
    hide PoolOk, RunningOk, NoDup, Order;
    BaseInBounds(c, s, dones);
  }

  lemma InvSound(c: Config, s: State, batch: seq<Scheduled>)
    requires Inv(c, s, batch)
    ensures Sound(c, s.pool) && PoolInBounds(s.pool)
  {
    hide Base, EntryOk;
    BaseSound(c, s, Dones(s, batch));
  }

  lemma ReleaseTraced(c: Config, p: Pool, r: Request)
    requires Releasable(c, p, r) && Sound(c, p) && Sound(c, Release(c, p, r))
    ensures Traced(c, p, Release(c, p, r))
  {
    hide PoolOk, ReleaseBlocks, Referenced, PoolInBounds;
    TracedCall(c, p, GiveBack(r.id, r.tokens, r.numComputed));
  }

  // ---------------------------------------------------------------- scheduling

  lemma PreemptTraced(c: Config, s: State, batch: seq<Scheduled>)
    requires Inv(c, s, batch) && |batch| < |s.running|
    ensures Releasable(c, s.pool, s.running[|s.running| - 1])
    ensures Traced(c, s.pool, PreemptLast(c, s).pool)
  {
    hide Inv, Releasable, Release, Sound, Order;
    PreemptKeepsInv(c, s, batch);
    InvSound(c, s, batch);
    InvSound(c, PreemptLast(c, s), batch);
    ReleaseTraced(c, s.pool, s.running[|s.running| - 1]);
  }

  lemma {:induction false} SecureTraced(c: Config, s: State, batch: seq<Scheduled>, i: nat, n: nat)
    requires Inv(c, s, batch) && i == |batch| < |s.running|
    requires n > 0 && s.running[i].numComputed + n <= |s.running[i].tokens|
    ensures Traced(c, s.pool, Secure(c, s, batch, i, n).0.pool)
    decreases |s.running|
  {
    hide Inv, Release, Releasable, Order, Askable, Fits, Traced, Sound;
    InvSound(c, s, batch);
    NextAskable(c, s, batch, n);
    if Fits(c, s.pool, s.running[i], n) {
      TracedSelf(c, s.pool);
    } else {
      PreemptKeepsInv(c, s, batch);
      PreemptTraced(c, s, batch);
      var s' := PreemptLast(c, s);
      if i < |s.running| - 1 {
        SecureTraced(c, s', batch, i, n);
        TracedThen(c, s.pool, s'.pool, Secure(c, s', batch, i, n).0.pool);
      }
    }
  }

  lemma FeedTraced(c: Config, s: State, batch: seq<Scheduled>, n: nat)
    requires Inv(c, s, batch) && |batch| < |s.running|
    requires n > 0 && Feedable(c, s.pool, s.running[|batch|], n)
    ensures Traced(c, s.pool, Feed(c, s, |batch|, n).0.pool)
  {
    hide Inv, Sound, AllocateSlots, Order, PoolInBounds;
    var r := s.running[|batch|];
    FeedKeepsInv(c, s, batch, n);
    InvSound(c, s, batch);
    InvSound(c, Feed(c, s, |batch|, n).0, batch + [Feed(c, s, |batch|, n).1]);
    TracedCall(c, s.pool, Allocate(r.id, r.tokens, r.numComputed, n));
  }

  lemma {:induction false} ServeTraced(c: Config, s: State, budget: nat, batch: seq<Scheduled>)
    requires Inv(c, s, batch)
    ensures Traced(c, s.pool, ServeRunning(c, s, budget, batch).0.pool)
    decreases |s.running| - |batch|
  {
    hide EntryOk, Base, Order, Askable, Fits, Secure, Traced, Sound, Feed;
    InvSound(c, s, batch);
    TracedSelf(c, s.pool);
    var i := |batch|;
    if !(i == |s.running| || budget == 0 || i >= c.maxSeqs) {
      var n := ShareOf(s.running[i], budget);
      assert Ready(s.running[i]);
      SecureMoves(c, s, batch, i, n);
      SecureTraced(c, s, batch, i, n);
      var (s1, ok) := Secure(c, s, batch, i, n);
      if ok {
        FeedKeepsInv(c, s1, batch, n);
        FeedTraced(c, s1, batch, n);
        FedLength(c, s1, i, n);
        var (s2, e) := Feed(c, s1, i, n);
        ServeTraced(c, s2, budget - n, batch + [e]);
        var s3 := ServeRunning(c, s2, budget - n, batch + [e]).0;
        TracedThen(c, s.pool, s1.pool, s2.pool);
        TracedThen(c, s.pool, s2.pool, s3.pool);
      }
    }
  }

  lemma FedLength(c: Config, s: State, i: nat, n: nat)
    requires i < |s.running| && Feedable(c, s.pool, s.running[i], n)
    ensures var s' := Feed(c, s, i, n).0;
            && |s'.running| == |s.running| && s'.preempted == s.preempted && s'.waiting == s.waiting
  {
    hide AllocateSlots;
  }

  lemma EnterLength(c: Config, s: State)
    requires Enterable(c, s)
    ensures Head(s).tokens != [] && PoolInBounds(s.pool)
    ensures var s' := Enter(c, s);
            && |s'.running| == |s.running| + 1
            && |s'.preempted| + |s'.waiting| + 1 == |s.preempted| + |s.waiting|
  {
    hide ReusePrefix, PoolInBounds, Releasable;
  }

  lemma EnterTraced(c: Config, s: State, batch: seq<Scheduled>)
    requires Inv(c, s, batch) && |batch| == |s.running| < c.maxSeqs && HasHead(s)
    ensures Enterable(c, s) && Traced(c, s.pool, Enter(c, s).pool)
  {
    hide Base, EntryOk, Sound, ReusePrefix, Order, PoolInBounds, Releasable;
    EnterKeepsInv(c, s, batch);
    InvSound(c, s, batch);
    InvSound(c, Enter(c, s), batch);
    HeadFresh(c, s, Dones(s, batch));
    TracedCall(c, s.pool, Reuse(Head(s).id, Head(s).tokens));
  }

  lemma AbandonTraced(c: Config, s: State, batch: seq<Scheduled>)
    requires Inv(c, s, batch) && |batch| == |s.running| < c.maxSeqs && HasHead(s)
    ensures Enterable(c, s) && Traced(c, s.pool, Abandon(c, s).pool)
  {
    hide Inv, Sound, ReusePrefix, Order, PoolInBounds, Releasable, Release, Traced;
    EnterTraced(c, s, batch);
    EnterKeepsInv(c, s, batch);
    AbandonKeepsInv(c, s, batch);
    InvSound(c, Enter(c, s), batch);
    InvSound(c, Abandon(c, s), batch);
    ReleaseTraced(c, Enter(c, s).pool, Enter(c, s).running[|s.running|]);
    TracedThen(c, s.pool, Enter(c, s).pool, Abandon(c, s).pool);
  }

  lemma {:induction false} AdmitTraced(c: Config, s: State, budget: nat, batch: seq<Scheduled>)
    requires Inv(c, s, batch)
    requires |batch| == |s.running| || budget == 0 || |batch| >= c.maxSeqs
    ensures Traced(c, s.pool, AdmitQueued(c, s, budget, batch).0.pool)
    decreases |s.preempted| + |s.waiting|
  {
    hide EntryOk, Base, Order, Askable, Fits, Enterable, Enter, Abandon, Feed, Traced, Sound;
    InvSound(c, s, batch);
    TracedSelf(c, s.pool);
    if !(!HasHead(s) || budget == 0 || |batch| >= c.maxSeqs) {
      var i := |batch|;
      EnterKeepsInv(c, s, batch);
      EnterTraced(c, s, batch);
      EnterLength(c, s);
      var s1 := Enter(c, s);
      assert Ready(s1.running[i]);
      var n := ShareOf(s1.running[i], budget);
      NextAskable(c, s1, batch, n);
      if !Fits(c, s1.pool, s1.running[i], n) {
        AbandonKeepsInv(c, s, batch);
        AbandonTraced(c, s, batch);
      } else {
        FeedKeepsInv(c, s1, batch, n);
        FeedTraced(c, s1, batch, n);
        FedLength(c, s1, i, n);
        var (s2, e) := Feed(c, s1, i, n);
        AdmitTraced(c, s2, budget - n, batch + [e]);
        var s3 := AdmitQueued(c, s2, budget - n, batch + [e]).0;
        TracedThen(c, s.pool, s1.pool, s2.pool);
        TracedThen(c, s.pool, s2.pool, s3.pool);
      }
    }
  }

  lemma ScheduleTraced(c: Config, s: State)
    requires Inv(c, s, [])
    ensures Traced(c, s.pool, Schedule(c, s).0.pool)
  {
    hide Base, EntryOk, Order, Traced, ServeRunning, AdmitQueued;
    ServeTraced(c, s, c.maxScheduledTokens, []);
    var (s1, budget, batch) := ServeRunning(c, s, c.maxScheduledTokens, []);
    if |s1.preempted| == |s.preempted| {
      AdmitTraced(c, s1, budget, batch);
      TracedThen(c, s.pool, s1.pool, AdmitQueued(c, s1, budget, batch).0.pool);
    }
  }

  // ---------------------------------------------------------------- removal and delivery

  lemma DonesSize(c: Config, s: State, dones: seq<nat>)
    requires Base(c, s, dones)
    ensures |dones| == |s.running|
  {
  }

  lemma RemoveRunningTraced(c: Config, s: State, dones: seq<nat>, i: nat)
    requires Base(c, s, dones) && i < |s.running|
    ensures Releasable(c, s.pool, s.running[i]) && Traced(c, s.pool, RemoveRunning(c, s, i).pool)
  {
    hide Base, Sound, Releasable, Release, Traced;
    DonesSize(c, s, dones);
    RemoveRunningKeepsBase(c, s, dones, i);
    BaseSound(c, s, dones);
    BaseSound(c, RemoveRunning(c, s, i), Delete(dones, i));
    ReleaseTraced(c, s.pool, s.running[i]);
  }

  lemma RemoveTraced(c: Config, s: State, id: Id)
    requires Inv(c, s, [])
    ensures Removable(c, s, id) && Traced(c, s.pool, Remove(c, s, id).pool)
  {
    hide Base, EntryOk, Sound, Releasable, Traced, RemoveRunning;
    RemoveKeepsInv(c, s, id);
    InvSound(c, s, []);
    TracedSelf(c, s.pool);
    var i := Find(s.running, id);
    if i < |s.running| {
      RemoveRunningTraced(c, s, Dones(s, []), i);
      RemoveIs(c, s, id);
    } else {
      RemoveQueuedPool(c, s, id);
    }
  }

  lemma RemoveIs(c: Config, s: State, id: Id)
    requires Removable(c, s, id) && Find(s.running, id) < |s.running|
    ensures Remove(c, s, id) == RemoveRunning(c, s, Find(s.running, id))
  {
    hide Releasable;
  }

  lemma RemoveQueuedPool(c: Config, s: State, id: Id)
    requires Removable(c, s, id) && Find(s.running, id) == |s.running|
    ensures Remove(c, s, id).pool == s.pool
  {
    hide Releasable;
  }

  lemma DeliverTraced(c: Config, s: State, rest: seq<Sampled>, i: nat)
    requires Delivering(c, s, rest) && Deliverable(s, rest) && rest != []
    requires i < |s.running| && s.running[i].id == rest[0].id
    ensures Releasable(c, s.pool, Grow(s.running[i], rest[0].token))
    ensures Traced(c, s.pool, Deliver(c, s, i, rest[0]).0.pool)
  {
    hide Base, Sound, Releasable, Release, Traced, FinishReason, Order;
    DeliverKeeps(c, s, rest, i);
    BaseSound(c, s, Computed(s));
    TracedSelf(c, s.pool);
    var s1 := s.(running := s.running[i := Grow(s.running[i], rest[0].token)]);
    GrowKeepsBase(c, s, Computed(s), i, rest[0].token);
    RemoveRunningTraced(c, s1, Computed(s), i);
  }

  lemma {:induction false} UpdateTraced(c: Config, s: State, rest: seq<Sampled>)
    requires Delivering(c, s, rest) && Deliverable(s, rest)
    ensures Traced(c, s.pool, Update(c, s, rest).0.pool)
    decreases |rest|
  {
    hide Deliverable, Releasable, Deliver, Traced, Base, Sound;
    BaseSound(c, s, Computed(s));
    if rest == [] {
      TracedSelf(c, s.pool);
    } else {
      var i := FirstRunning(s, rest);
      DeliverKeeps(c, s, rest, i);
      DeliverTraced(c, s, rest, i);
      var s' := Deliver(c, s, i, rest[0]).0;
      UpdateTraced(c, s', rest[1..]);
      TracedThen(c, s.pool, s'.pool, Update(c, s', rest[1..]).0.pool);
    }
  }

  // ---------------------------------------------------------------- runs

  lemma ApplyTraced(c: Config, w: World, g: Engine, e: Event)
    requires Good(c, g) && EventOk(c, g, e)
    ensures Traced(c, g.s.pool, Apply(c, w, g, e).s.pool)
  {
    hide Good, Inv, Traced, Sound, Removable, Remove, Delivering, Deliverable, AllAddressable, Schedule, ForwardAll,
         SampleAll, Update, Order;
    GoodInv(c, g);
    InvSound(c, g.s, []);
    TracedSelf(c, g.s.pool);
    match e {
      case Add(a) =>
      case Abort(id) =>
        RemoveKeepsInv(c, g.s, id);
        RemoveTraced(c, g.s, id);
      case Step =>
        var s, batch, kv, xs := StepIsUpdate(c, w, g);
        ScheduleTraced(c, g.s);
        UpdateTraced(c, s, xs);
        TracedThen(c, g.s.pool, s.pool, Update(c, s, xs).0.pool);
    }
  }

  lemma {:induction false} RunTraced(c: Config, w: World, g: Engine, events: seq<Event>)
    requires RunOk(c, g, events)
    ensures Traced(c, g.s.pool, Run(c, w, g, events).s.pool)
    decreases |events|
  {
    hide Good, Traced, Apply, Sound;
    if events == [] {
      GoodSound(c, g);
      TracedSelf(c, g.s.pool);
    } else {
      RunRest(c, w, g, events);
      var g' := Apply(c, w, g, events[0]);
      ApplyTraced(c, w, g, events[0]);
      RunTraced(c, w, g', events[1..]);
      TracedThen(c, g.s.pool, g'.s.pool, Run(c, w, g', events[1..]).s.pool);
    }
  }

  lemma GoodSound(c: Config, g: Engine)
    requires Good(c, g)
    ensures Sound(c, g.s.pool)
  {
    hide Good, Inv, Sound;
    GoodInv(c, g);
    InvSound(c, g.s, []);
  }

  /** In every run from start-up the pool has changed by calls of the cache manager only, and
      the free list, from whose head every allocation takes its blocks, is sorted by the time
      since which its blocks are unused. */
  lemma EveryRunEvictsOldest(c: Config, w: World, events: seq<Event>) returns (ps: seq<Pool>)
    requires ArrivalsOk(c, events)
    ensures RunOk(c, Start(c), events)
    ensures Leads(c, ps, Initial(c).pool, Run(c, w, Start(c), events).s.pool) && OldestFirst(ps)
  {
    hide Good, Run, RunOk, Trace, OldestFirst;
    StartRunOk(c, events);
    RunTraced(c, w, Start(c), events);
    ps :| Leads(c, ps, Initial(c).pool, Run(c, w, Start(c), events).s.pool);
    TraceOldest(c, ps);
  }
}
