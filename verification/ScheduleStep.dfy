/** One call of the scheduler: running requests first, with preemption, then admission. */
module ScheduleStep {
  import opened Types
  import opened CachePool
  import opened PoolInvariant
  import opened SchedulerModel

  // ---------------------------------------------------------------- invariant of a step

  /** Between steps: something is left to compute, and it is either the rest of a prefill
      or the one token that was sampled last. */
  ghost predicate Ready(r: Request) {
    r.numComputed < |r.tokens| && (r.numPrefill == |r.tokens| || r.numComputed + 1 == |r.tokens|)
  }

  /** After r got its share: a chunk of the prefill, or everything up to the last token. */
  ghost predicate Fed(r: Request) {
    r.numComputed <= |r.tokens| && (r.numPrefill == |r.tokens| || r.numComputed == |r.tokens|)
  }

  /** e is exactly what the step computes for r: the tokens from `offset` on, addressed
      through r's own table, sampled iff the last token is among them. */
  ghost predicate EntryOk(p: Pool, r: Request, e: Scheduled) {
    && e.offset < r.numComputed <= |r.tokens| && r.id in p.tables
    && e.id == r.id && e.tokens == r.tokens[e.offset..r.numComputed]
    && e.blocks == p.tables[r.id] && e.params == r.params
    && e.isPrefill == (e.offset < r.numPrefill)
    && e.needsSampling == (r.numComputed == |r.tokens|)
  }

  ghost function Dones(s: State, batch: seq<Scheduled>): (d: seq<nat>)
    ensures |d| == |s.running|
    ensures forall i :: 0 <= i < |d| ==> d[i] == if i < |batch| then batch[i].offset else s.running[i].numComputed
  {
    seq(|s.running|, i requires 0 <= i < |s.running| => if i < |batch| then batch[i].offset
        else s.running[i].numComputed)
  }

  ghost function Computed(s: State): (d: seq<nat>)
    ensures |d| == |s.running| && forall i :: 0 <= i < |d| ==> d[i] == s.running[i].numComputed
  {
    seq(|s.running|, i requires 0 <= i < |s.running| => s.running[i].numComputed)
  }

  /** Holds at every point of scheduling; the batch so far covers the oldest running requests. */
  ghost predicate Inv(c: Config, s: State, batch: seq<Scheduled>) {
    && |batch| <= |s.running|
    && Base(c, s, Dones(s, batch))
    && (forall i :: 0 <= i < |s.running| ==> TokensOk(c, s.running[i]))
    && (forall i :: 0 <= i < |batch| ==> EntryOk(s.pool, s.running[i], batch[i]) && Fed(s.running[i]))
    && (forall i :: |batch| <= i < |s.running| ==> Ready(s.running[i]))
  }

  lemma InvNoDup(c: Config, s: State, batch: seq<Scheduled>)
    requires Inv(c, s, batch)
    ensures NoDup(Order(s))
  {
  }

  lemma EntryKept(p: Pool, p': Pool, id: Id, r: Request, e: Scheduled)
    requires EntryOk(p, r, e) && OthersKept(p, p', id) && r.id != id
    ensures EntryOk(p', r, e)
  {
  }

  lemma PreemptKeepsInv(c: Config, s: State, batch: seq<Scheduled>)
    requires Inv(c, s, batch) && |batch| < |s.running|
    ensures Releasable(c, s.pool, s.running[|s.running| - 1])
    ensures var s' := PreemptLast(c, s); Inv(c, s', batch) && Order(s') == Order(s)
  {
    hide Base, EntryOk, Releasable, Release, OthersKept, Order;
    var n := |s.running| - 1;
    PreemptKeepsBase(c, s, Dones(s, batch));
    var s' := PreemptLast(c, s);
    assert Dones(s', batch) == Dones(s, batch)[..n];
    PreemptFrame(c, s, Dones(s, batch));
    forall i | 0 <= i < |batch|
      ensures EntryOk(s'.pool, s'.running[i], batch[i])
    {
      EntryKept(s.pool, s'.pool, s.running[n].id, s.running[i], batch[i]);
    }
  }

  lemma PreemptFrame(c: Config, s: State, dones: seq<nat>)
    requires Base(c, s, dones) && s.running != []
    ensures var n := |s.running| - 1;
            && Releasable(c, s.pool, s.running[n])
            && OthersKept(s.pool, PreemptLast(c, s).pool, s.running[n].id)
            && forall i :: 0 <= i < n ==> s.running[i].id != s.running[n].id
  {
    hide PoolOk, RunningOk, Releasable, Release, OthersKept;
    ReleaseRunning(c, s, dones, |s.running| - 1);
    forall i | 0 <= i < |s.running| - 1
      ensures s.running[i].id != s.running[|s.running| - 1].id
    {
      RunningDistinct(s, i, |s.running| - 1);
    }
  }

  lemma FeedKeepsInv(c: Config, s: State, batch: seq<Scheduled>, n: nat)
    requires Inv(c, s, batch) && |batch| < |s.running|
    requires n > 0 && Feedable(c, s.pool, s.running[|batch|], n)
    ensures var (s', e) := Feed(c, s, |batch|, n); Inv(c, s', batch + [e]) && Order(s') == Order(s)
  {
    hide Base, EntryOk, Feedable, OthersKept, Order;
    var i := |batch|;
    FeedKeepsBase(c, s, Dones(s, batch), i, n);
    FeedFrame(c, s, Dones(s, batch), i, n);
    var (s', e) := Feed(c, s, i, n);
    assert Dones(s', batch + [e]) == Dones(s, batch);
    forall j | 0 <= j < |batch|
      ensures EntryOk(s'.pool, s'.running[j], (batch + [e])[j])
    {
      EntryKept(s.pool, s'.pool, s.running[i].id, s.running[j], batch[j]);
    }
  }

  lemma FeedFrame(c: Config, s: State, dones: seq<nat>, i: nat, n: nat)
    requires Base(c, s, dones) && i < |s.running| && dones[i] == s.running[i].numComputed
    requires n > 0 && Feedable(c, s.pool, s.running[i], n)
    requires s.running[i].numPrefill == |s.running[i].tokens| || s.running[i].numComputed + 1 == |s.running[i].tokens|
    requires s.running[i].numPrefill <= |s.running[i].tokens|
    ensures var (s', e) := Feed(c, s, i, n);
            && OthersKept(s.pool, s'.pool, s.running[i].id)
            && s'.running[i].numComputed <= |s'.running[i].tokens|
            && EntryOk(s'.pool, s'.running[i], e) && e.offset == s.running[i].numComputed
            && |e.tokens| == n
    ensures forall j :: 0 <= j < |s.running| && j != i ==> s.running[j].id != s.running[i].id
  {
    hide PoolOk, TableOk, OthersKept, AllocateSlots;
    var r := s.running[i];
    assert RunningOk(c, s.pool, r, dones[i]);
    AllocateKeepsOk(c, s.pool, r.id, r.tokens, dones[i], r.numComputed, n);
    forall j | 0 <= j < |s.running| && j != i
      ensures s.running[j].id != s.running[i].id
    {
      RunningDistinct(s, i, j);
    }
  }

  lemma EnterKeepsInv(c: Config, s: State, batch: seq<Scheduled>)
    requires Inv(c, s, batch) && |batch| == |s.running| < c.maxSeqs && HasHead(s)
    ensures Enterable(c, s)
    ensures var s' := Enter(c, s);
            Inv(c, s', batch) && Order(s') == Order(s)
  {
    hide Base, EntryOk, OthersKept, Order, ReusePrefix, Releasable;
    var n := |s.running|;
    EnterKeepsBase(c, s, Dones(s, batch));
    EnterFrame(c, s, Dones(s, batch));
    var s' := Enter(c, s);
    assert Dones(s', batch) == Dones(s, batch) + [s'.running[n].numComputed];
    forall i | 0 <= i < |batch|
      ensures EntryOk(s'.pool, s'.running[i], batch[i])
    {
      EntryKept(s.pool, s'.pool, s'.running[n].id, s.running[i], batch[i]);
    }
  }

  lemma EnterFrame(c: Config, s: State, dones: seq<nat>)
    requires Base(c, s, dones) && HasHead(s) && |s.running| < c.maxSeqs
    ensures Enterable(c, s) && |Enter(c, s).running| == |s.running| + 1
    ensures var s', n := Enter(c, s), |s.running|;
            && OthersKept(s.pool, s'.pool, Head(s).id) && s'.running[n].id == Head(s).id
            && OthersKept(s.pool, Abandon(c, s).pool, Head(s).id)
            && Abandon(c, s).pool.tables == s.pool.tables
            && forall i :: 0 <= i < n ==> s.running[i].id != Head(s).id
  {
    hide PoolOk, RunningOk, ReusePrefix, Releasable, Release, Order;
    BaseInBounds(c, s, dones);
    HeadFresh(c, s, dones);
    EnterKeepsBase(c, s, dones);
    var h, s', n := Head(s), Enter(c, s), |s.running|;
    ReuseKeepsOk(c, s.pool, h.id, h.tokens);
    ReleaseRunning(c, s', dones + [s'.running[n].numComputed], n);
  }

  lemma AbandonKeepsInv(c: Config, s: State, batch: seq<Scheduled>)
    requires Inv(c, s, batch) && |s.running| < c.maxSeqs && HasHead(s)
    ensures Enterable(c, s)
    ensures Inv(c, Abandon(c, s), batch) && Order(Abandon(c, s)) == Order(s)
  {
    hide Base, EntryOk, Enterable, OthersKept, Releasable, Release, Enter;
    AbandonKeepsBase(c, s, Dones(s, batch));
    EnterFrame(c, s, Dones(s, batch));
    var s' := Abandon(c, s);
    assert Dones(s', batch) == Dones(s, batch);
    forall i | 0 <= i < |batch|
      ensures EntryOk(s'.pool, s'.running[i], batch[i])
    {
      EntryKept(s.pool, s'.pool, Head(s).id, s.running[i], batch[i]);
    }
  }

  // ---------------------------------------------------------------- the step

  lemma EnteredSize(c: Config, s: State)
    requires HasHead(s) && Head(s).tokens != [] && PoolInBounds(s.pool)
    ensures |Enter(c, s).running| == |s.running| + 1
    ensures |Enter(c, s).preempted| + |Enter(c, s).waiting| + 1 == |s.preempted| + |s.waiting|
  {
    hide ReusePrefix;
  }

  lemma FedSizes(c: Config, s: State, i: nat, n: nat)
    requires i < |s.running| && Feedable(c, s.pool, s.running[i], n)
    ensures var s' := Feed(c, s, i, n).0;
            |s'.running| == |s.running| && s'.preempted == s.preempted && s'.waiting == s.waiting
    ensures |Feed(c, s, i, n).1.tokens| == n
  {
    hide AllocateSlots;
  }

  lemma InvBatch(c: Config, s: State, batch: seq<Scheduled>)
    requires Inv(c, s, batch)
    ensures |batch| <= |s.running|
  {
  }

  lemma NextAskable(c: Config, s: State, batch: seq<Scheduled>, n: nat)
    requires Inv(c, s, batch) && |batch| < |s.running|
    requires s.running[|batch|].numComputed + n <= |s.running[|batch|].tokens|
    ensures Askable(c, s.pool, s.running[|batch|], n)
  {
    hide PoolOk, TableOk, EntryOk;
    BaseInBounds(c, s, Dones(s, batch));
    assert RunningOk(c, s.pool, s.running[|batch|], Dones(s, batch)[|batch|]);
    NeedsMoreBlocks(c, s.pool, s.running[|batch|], Dones(s, batch)[|batch|], n);
  }

  lemma NextShare(c: Config, s: State, batch: seq<Scheduled>, budget: nat)
    requires Inv(c, s, batch) && |batch| < |s.running| && budget > 0
    ensures var r := s.running[|batch|];
            0 < ShareOf(r, budget) <= budget && r.numComputed + ShareOf(r, budget) <= |r.tokens|
  {
    hide Base, EntryOk;
    assert Ready(s.running[|batch|]);
  }

  /** Preempts from the young end until the next request's share fits, or until that
      request itself had to go. */
  function Secure(c: Config, s: State, ghost batch: seq<Scheduled>, i: nat, n: nat): (r: (State, bool))
    requires Inv(c, s, batch) && i == |batch| < |s.running|
    requires n > 0 && s.running[i].numComputed + n <= |s.running[i].tokens|
    ensures Inv(c, r.0, batch) && Order(r.0) == Order(s)
    ensures r.1 ==> i < |r.0.running| && Feedable(c, r.0.pool, r.0.running[i], n)
    decreases |s.running|
  {
    hide Inv, Release, Releasable, Order, Askable, Fits;
    NextAskable(c, s, batch, n);
    if Fits(c, s.pool, s.running[i], n) then (s, true)
    else
      PreemptKeepsInv(c, s, batch);
      var s' := PreemptLast(c, s);
      if i == |s.running| - 1 then (s', false) else Secure(c, s', batch, i, n)
  }

  /** Securing only moves requests from the running to the preempted queue. */
  lemma {:induction false} SecureMoves(c: Config, s: State, batch: seq<Scheduled>, i: nat, n: nat)
    requires Inv(c, s, batch) && i == |batch| < |s.running|
    requires n > 0 && s.running[i].numComputed + n <= |s.running[i].tokens|
    ensures var (s', ok) := Secure(c, s, batch, i, n);
            && i <= |s'.running| <= |s.running|
            && (forall j :: 0 <= j < |s'.running| ==> s'.running[j] == s.running[j])
            && |s'.preempted| + |s'.running| == |s.preempted| + |s.running|
            && s'.waiting == s.waiting
            && (!ok ==> |s'.running| == i)
            && (|s'.running| == |s.running| ==> ok && s' == s)
    decreases |s.running|
  {
    hide Inv, Release, Releasable, Order, Askable, Fits;
    NextAskable(c, s, batch, n);
    if !Fits(c, s.pool, s.running[i], n) {
      PreemptKeepsInv(c, s, batch);
      if i < |s.running| - 1 { SecureMoves(c, PreemptLast(c, s), batch, i, n); }
    }
  }

  function Total(batch: seq<Scheduled>): nat {
    if batch == [] then 0 else Total(batch[..|batch| - 1]) + |batch[|batch| - 1].tokens|
  }

  /** Pass 1: the running requests, oldest first. */
  function ServeRunning(c: Config, s: State, budget: nat, batch: seq<Scheduled>): (r: (State, nat, seq<Scheduled>))
    requires Inv(c, s, batch)
    ensures Inv(c, r.0, r.2) && Order(r.0) == Order(s)
    ensures batch <= r.2
    ensures |r.0.preempted| >= |s.preempted|
    ensures |r.0.preempted| == |s.preempted| ==> |r.2| == |r.0.running| || r.1 == 0 || |r.2| >= c.maxSeqs
    decreases |s.running| - |batch|
  {
    hide EntryOk, Base, Order, Askable, Fits, Secure;
    var i := |batch|;
    if i == |s.running| || budget == 0 || i >= c.maxSeqs then (s, budget, batch)
    else
      var n := ShareOf(s.running[i], budget);
      assert Ready(s.running[i]);
      SecureMoves(c, s, batch, i, n);
      var (s1, ok) := Secure(c, s, batch, i, n);
      if !ok then (s1, budget, batch)
      else
        FeedKeepsInv(c, s1, batch, n);
        var (s2, e) := Feed(c, s1, i, n);
        ServeRunning(c, s2, budget - n, batch + [e])
  }

  /** Pass 2: preempted requests, then waiting ones, until one does not fit. */
  function AdmitQueued(c: Config, s: State, budget: nat, batch: seq<Scheduled>): (r: (State, nat, seq<Scheduled>))
    requires Inv(c, s, batch)
    requires |batch| == |s.running| || budget == 0 || |batch| >= c.maxSeqs
    ensures Inv(c, r.0, r.2) && Order(r.0) == Order(s)
    ensures batch <= r.2
    decreases |s.preempted| + |s.waiting|
  {
    hide EntryOk, Release, Order, AllocateSlots, RunningOk, PoolOk;
    if !HasHead(s) || budget == 0 || |batch| >= c.maxSeqs then (s, budget, batch)
    else
      var i := |batch|;
      EnterKeepsInv(c, s, batch);
      var s1 := Enter(c, s);
      assert Ready(s1.running[i]);
      var n := ShareOf(s1.running[i], budget);
      NextAskable(c, s1, batch, n);
      if !Fits(c, s1.pool, s1.running[i], n) then
        AbandonKeepsInv(c, s, batch);
        (Abandon(c, s), budget, batch)
      else
        FeedKeepsInv(c, s1, batch, n);
        var (s2, e) := Feed(c, s1, i, n);
        AdmitQueued(c, s2, budget - n, batch + [e])
  }

  /** Admission is skipped in a step that had to preempt. */
  function Schedule(c: Config, s: State): (r: (State, seq<Scheduled>))
    requires Inv(c, s, [])
    ensures Inv(c, r.0, r.1) && Order(r.0) == Order(s)
  {
    var (s1, budget, batch) := ServeRunning(c, s, c.maxScheduledTokens, []);
    if |s1.preempted| == |s.preempted| then
      var (s2, _, batch2) := AdmitQueued(c, s1, budget, batch);
      (s2, batch2)
    else (s1, batch)
  }
}
