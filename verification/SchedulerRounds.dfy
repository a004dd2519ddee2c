/** What one round of each of the scheduler's loops does to the model's state.  The functions
    are total, so that a method can say what it does to the state it was called in. */
module SchedulerRounds {
  import opened Types
  import opened Arith
  import opened CachePool
  import opened PoolInvariant
  import opened SchedulerModel
  import opened ScheduleStep
  import opened Lifecycle
  import opened UpdateStep
  import opened Decoder
  import K = KVCacheManager

  // ---------------------------------------------------------------- pass 1

  ghost function RunningAllocated(c: Config, s: State, i: nat, n: nat): (State, bool) {
    if i < |s.running| then
      var (p, ok) := K.Allocation(c, s.pool, s.running[i], n);
      (s.(pool := p), ok)
    else (s, false)
  }

  ghost predicate Suppliable(s: State, i: nat, n: nat) {
    i < |s.running| && s.running[i].id in s.pool.tables && s.running[i].numComputed + n <= |s.running[i].tokens|
  }

  /** The state and the entry once running[i], whose slots are allocated, got its share. */
  ghost function Supplied(s: State, i: nat, n: nat): (State, Scheduled)
    requires Suppliable(s, i, n)
  {
    var r := s.running[i];
    (s.(running := s.running[i := r.(numComputed := r.numComputed + n)]), EntryOf(s.pool, r, n))
  }

  ghost function AfterPreempt(c: Config, s: State): State {
    if s.running != [] && Releasable(c, s.pool, s.running[|s.running| - 1]) then SchedulerModel.PreemptLast(c, s) else s
  }

  lemma PartsApart<T>(a: seq<T>, b: seq<T>, c: seq<T>)
    requires forall i, j :: 0 <= i < j < |a + b + c| ==> (a + b + c)[i] != (a + b + c)[j]
    ensures forall i, j :: 0 <= i < j < |a| ==> a[i] != a[j]
    ensures forall i, j :: 0 <= i < j < |b| ==> b[i] != b[j]
    ensures forall i, j :: 0 <= i < j < |c| ==> c[i] != c[j]
    ensures forall i, j :: 0 <= i < |a| && 0 <= j < |b| ==> a[i] != b[j]
    ensures forall i, j :: 0 <= i < |a| && 0 <= j < |c| ==> a[i] != c[j]
    ensures forall i, j :: 0 <= i < |b| && 0 <= j < |c| ==> b[i] != c[j]
  {
    var s, m, n := a + b + c, |a|, |a| + |b|;
    assert forall i :: 0 <= i < |a| ==> s[i] == a[i];
    assert forall i :: 0 <= i < |b| ==> s[m + i] == b[i];
    assert forall i :: 0 <= i < |c| ==> s[n + i] == c[i];
  }

  lemma DifferentIds(order: seq<Request>, i: nat, j: nat)
    requires NoDup(order) && i < j < |order|
    ensures order[i].id != order[j].id
  {
  }

  ghost predicate SecureReady(c: Config, s: State, batch: seq<Scheduled>, n: nat) {
    && Inv(c, s, batch) && |batch| < |s.running| && n > 0
    && s.running[|batch|].numComputed + n <= |s.running[|batch|].tokens|
  }

  ghost function AfterSecure(c: Config, s: State, batch: seq<Scheduled>, n: nat): (State, bool) {
    if SecureReady(c, s, batch, n) then Secure(c, s, batch, |batch|, n) else (s, false)
  }

  /** What securing slots leaves behind: the model's state, with the slots allocated if it
      succeeded. */
  ghost predicate Secured(c: Config, s: State, s': State, batch: seq<Scheduled>, n: nat, ok: bool) {
    var (s1, ok') := AfterSecure(c, s, batch, n);
    && ok == ok'
    && if ok then |batch| < |s1.running| && Feedable(c, s1.pool, s1.running[|batch|], n)
                  && s' == s1.(pool := K.Allocation(c, s1.pool, s1.running[|batch|], n).0)
       else s' == s1
  }

  lemma SecureRound(c: Config, s: State, batch: seq<Scheduled>, n: nat)
    requires SecureReady(c, s, batch, n)
    ensures Inv(c, s, batch) && n > 0 && |batch| < |s.running|
    ensures K.CanAllocate(c, s.pool, s.running[|batch|], n)
    ensures s.running[|s.running| - 1].id == s.running[|batch|].id <==> |batch| == |s.running| - 1
    ensures var (s', ok) := RunningAllocated(c, s, |batch|, n);
            if ok then Secured(c, s, s', batch, n, true)
            else
              && s' == s
              && if |batch| == |s.running| - 1 then Secured(c, s, AfterPreempt(c, s), batch, n, false)
                 else SecureReady(c, AfterPreempt(c, s), batch, n)
                      && AfterSecure(c, s, batch, n) == AfterSecure(c, AfterPreempt(c, s), batch, n)
  {
    hide Inv, Release, Releasable, Order;
    NextAskable(c, s, batch, n);
    PreemptKeepsInv(c, s, batch);
    InvNoDup(c, s, batch);
    if |batch| < |s.running| - 1 { RunningDistinct(s, |batch|, |s.running| - 1); }
  }

  lemma SecuredSame(c: Config, s: State, s0: State, s': State, batch: seq<Scheduled>, n: nat, ok: bool)
    requires Secured(c, s, s', batch, n, ok) && AfterSecure(c, s, batch, n) == AfterSecure(c, s0, batch, n)
    ensures Secured(c, s0, s', batch, n, ok)
  {
    hide AfterSecure;
  }

  ghost function Served(c: Config, s: State, budget: nat, batch: seq<Scheduled>): (State, nat, seq<Scheduled>) {
    if Inv(c, s, batch) then ScheduleStep.ServeRunning(c, s, budget, batch) else (s, budget, batch)
  }

  lemma ServeRound(c: Config, s: State, budget: nat, batch: seq<Scheduled>)
    requires Inv(c, s, batch) && |batch| < |s.running| && budget > 0
    ensures var n := ShareOf(s.running[|batch|], budget);
            0 < n <= budget && SecureReady(c, s, batch, n)
                && n == Min(|s.running[|batch|].tokens| - s.running[|batch|].numComputed, budget)
  {
    hide Inv;
    NextShare(c, s, batch, budget);
  }

  /** The state in which the share has been allocated but not yet been entered. */
  lemma ServeSecured(c: Config, s: State, s': State, budget: nat, batch: seq<Scheduled>, n: nat, ok: bool)
    requires Inv(c, s, batch) && |batch| < |s.running| && 0 < budget && |batch| < c.maxSeqs
    requires n == ShareOf(s.running[|batch|], budget) && SecureReady(c, s, batch, n) && n <= budget
    requires Secured(c, s, s', batch, n, ok)
    ensures !ok ==> Inv(c, s', batch) && Served(c, s, budget, batch) == (s', budget, batch)
    ensures ok ==>
              && |batch| < |s'.running| && NoDup(Order(s')) && Suppliable(s', |batch|, n)
              && var (s2, e) := Supplied(s', |batch|, n);
                 Inv(c, s2, batch + [e]) && Served(c, s, budget, batch) == Served(c, s2, budget - n, batch + [e])
  {
    hide Inv, Order, NoDup, Secure, Feedable, Feed, K.Allocation;
    SecureMoves(c, s, batch, |batch|, n);
    var (s1, ok1) := Secure(c, s, batch, |batch|, n);
    if ok {
      FeedKeepsInv(c, s1, batch, n);
      InvNoDup(c, s1, batch);
      OrderIgnoresPool(s1, s'.pool);
      AllocatedFed(c, s1, |batch|, n);
    }
  }

  lemma OrderIgnoresPool(s: State, p: Pool)
    ensures Order(s.(pool := p)) == Order(s)
  {
  }

  lemma AllocatedFed(c: Config, s: State, i: nat, n: nat)
    requires i < |s.running| && Feedable(c, s.pool, s.running[i], n)
    ensures var r, p := s.running[i], K.Allocation(c, s.pool, s.running[i], n).0;
            && r.id in p.tables && r.numComputed + n <= |r.tokens|
            && Feed(c, s, i, n) == Supplied(s.(pool := p), i, n)
  {
    hide AllocateSlots;
  }

  lemma ServeEnd(c: Config, s: State, budget: nat, batch: seq<Scheduled>)
    requires Inv(c, s, batch) && (|batch| == |s.running| || budget == 0 || |batch| >= c.maxSeqs)
    ensures Served(c, s, budget, batch) == (s, budget, batch)
  {
    hide Inv;
  }

  // ---------------------------------------------------------------- rounds of pass 2

  ghost function WithHead(s: State, r: Request): State {
    if s.preempted != [] then s.(preempted := s.preempted[0 := r])
    else if s.waiting != [] then s.(waiting := s.waiting[0 := r])
    else s
  }

  lemma HeadOrPool(s: State, r: Request, p: Pool)
    ensures WithHead(s.(pool := p), r) == WithHead(s, r).(pool := p)
  {
  }

  ghost function Reused(c: Config, s: State): State {
    if HasHead(s) && Head(s).tokens != [] && PoolInBounds(s.pool) then
      var (p, k) := CachePool.ReusePrefix(c, s.pool, Head(s).id, Head(s).tokens);
      WithHead(s, Head(s).(numComputed := k)).(pool := p)
    else s
  }

  ghost function HeadAllocated(c: Config, s: State, n: nat): (State, bool) {
    if HasHead(s) then
      var (p, ok) := K.Allocation(c, s.pool, Head(s), n);
      (s.(pool := p), ok)
    else (s, false)
  }

  ghost function Returned(c: Config, s: State): State {
    if HasHead(s) && Releasable(c, s.pool, Head(s)) then
      WithHead(s, Head(s).(numComputed := 0)).(pool := Release(c, s.pool, Head(s)))
    else s
  }

  ghost function HeadJoins(s: State): State {
    if s.preempted != [] then s.(running := s.running + [s.preempted[0]], preempted := s.preempted[1..])
    else if s.waiting != [] then s.(running := s.running + [s.waiting[0]], waiting := s.waiting[1..])
    else s
  }

  ghost predicate Joinable(s: State, n: nat) {
    HasHead(s) && Head(s).numComputed + n <= |Head(s).tokens| && Head(s).id in s.pool.tables
  }

  ghost function Joined(s: State, n: nat): (State, Scheduled)
    requires Joinable(s, n)
  {
    var r := Head(s).(numPrefill := |Head(s).tokens|, status := Status.Running);
    (HeadJoins(WithHead(s, r.(numComputed := r.numComputed + n))), EntryOf(s.pool, r, n))
  }

  ghost predicate AdmitReady(c: Config, s: State, budget: nat, batch: seq<Scheduled>) {
    Inv(c, s, batch) && (|batch| == |s.running| || budget == 0 || |batch| >= c.maxSeqs)
  }

  ghost function Admitted(c: Config, s: State, budget: nat, batch: seq<Scheduled>): (State, seq<Scheduled>) {
    if AdmitReady(c, s, budget, batch) then
      var (s', _, batch') := ScheduleStep.AdmitQueued(c, s, budget, batch);
      (s', batch')
    else (s, batch)
  }

  ghost function Stepped(c: Config, s: State): (State, seq<Scheduled>) {
    if Inv(c, s, []) then ScheduleStep.Schedule(c, s) else (s, [])
  }

  lemma AdmitEnd(c: Config, s: State, budget: nat, batch: seq<Scheduled>)
    requires AdmitReady(c, s, budget, batch) && (!HasHead(s) || budget == 0 || |batch| >= c.maxSeqs)
    ensures Admitted(c, s, budget, batch) == (s, batch)
  {
    hide Inv;
  }

  lemma ServedStep(c: Config, s: State)
    requires Inv(c, s, [])
    ensures var (s1, budget, batch) := Served(c, s, c.maxScheduledTokens, []);
            if |s1.preempted| == |s.preempted| then
              AdmitReady(c, s1, budget, batch) && Stepped(c, s) == Admitted(c, s1, budget, batch)
            else Stepped(c, s) == (s1, batch)
  {
    hide Inv;
  }

  lemma HeadFacts(c: Config, s: State, batch: seq<Scheduled>)
    requires Inv(c, s, batch) && HasHead(s)
    ensures NoDup(Order(s)) && Head(s).tokens != [] && PoolInBounds(s.pool) && Head(s).numComputed == 0
  {
    hide Order, EntryOk, PoolOk, RunningOk;
    BaseInBounds(c, s, Dones(s, batch));
    HeadFresh(c, s, Dones(s, batch));
  }

  lemma SameOrder(s: State, r: Request)
    requires HasHead(s) && Core(r) == Core(Head(s))
    ensures Order(WithHead(s, r)) == Order(s)
  {
    CoresSame(WithHead(s, r).preempted, s.preempted);
    CoresSame(WithHead(s, r).waiting, s.waiting);
  }

  /** Reuse happens before the request leaves its queue; joining later is entering. */
  lemma ReusedIs(c: Config, s: State)
    requires HasHead(s) && Head(s).tokens != [] && PoolInBounds(s.pool) && Head(s).numComputed == 0
    ensures Enter(c, s).running[..|s.running|] == s.running && |Enter(c, s).running| == |s.running| + 1
    ensures var s1, r := Reused(c, s), Enter(c, s).running[|s.running|];
            && s1.pool == Enter(c, s).pool && HasHead(s1)
            && Head(s1) == r.(numPrefill := Head(s).numPrefill, status := Head(s).status)
            && r.numPrefill == |r.tokens| && r.status == Status.Running
            && Order(s1) == Order(s) && s1.running == s.running
            && (forall x: Request, p: Pool ::
                  HeadJoins(WithHead(s1.(pool := p), x)) == Enter(c, s).(running := s.running + [x], pool := p))
            && (forall p: Pool :: WithHead(s1.(pool := p), Head(s1).(numComputed := 0)) == s.(pool := p))
  {
    hide ReusePrefix, Order, PoolInBounds;
    var k := CachePool.ReusePrefix(c, s.pool, Head(s).id, Head(s).tokens).1;
    SameOrder(s, Head(s).(numComputed := k));
    OrderIgnoresPool(WithHead(s, Head(s).(numComputed := k)), Reused(c, s).pool);
  }

  ghost predicate AdmitNext(c: Config, s: State, budget: nat, batch: seq<Scheduled>) {
    AdmitReady(c, s, budget, batch) && HasHead(s) && budget > 0 && |batch| < c.maxSeqs
  }

  ghost function HeadShare(c: Config, s: State, budget: nat): int {
    if HasHead(Reused(c, s)) then ShareOf(Head(Reused(c, s)), budget) else 0
  }

  /** Allocating for the head of the queue asks for what entering it would ask for. */
  lemma HeadAllocates(c: Config, s: State, budget: nat, batch: seq<Scheduled>)
    requires AdmitNext(c, s, budget, batch)
    ensures |batch| == |s.running|
    ensures HasHead(s) && NoDup(Order(s)) && Head(s).tokens != [] && PoolInBounds(s.pool) && Enterable(c, s)
    ensures Inv(c, Enter(c, s), batch) && |Enter(c, s).running| == |s.running| + 1
    ensures var s1, n := Reused(c, s), HeadShare(c, s, budget);
            && NoDup(Order(s1)) && HasHead(s1)
            && 0 < n <= budget && Head(s1).numComputed + n <= |Head(s1).tokens|
            && K.CanAllocate(c, s1.pool, Head(s1), n)
            && n == ShareOf(Enter(c, s).running[|s.running|], budget)
            && Askable(c, Enter(c, s).pool, Enter(c, s).running[|s.running|], n)
            && (K.Allocation(c, s1.pool, Head(s1), n).1
                <==> Fits(c, Enter(c, s).pool, Enter(c, s).running[|s.running|], n))
  {
    hide Inv, Order, NoDup, Enterable, Reused, PoolInBounds, AllocateSlots, HeadJoins, WithHead, Enter;
    HeadFacts(c, s, batch);
    ReusedIs(c, s);
    EnterKeepsInv(c, s, batch);
    EnteredSize(c, s);
    NextShare(c, Enter(c, s), batch, budget);
    NextAskable(c, Enter(c, s), batch, ShareOf(Enter(c, s).running[|batch|], budget));
  }

  lemma JoinedIs(c: Config, s: State, n: nat)
    requires HasHead(s) && Head(s).tokens != [] && PoolInBounds(s.pool) && Head(s).numComputed == 0 && n > 0
    requires |Enter(c, s).running| == |s.running| + 1
    requires Feedable(c, Enter(c, s).pool, Enter(c, s).running[|s.running|], n)
    ensures var s1 := Reused(c, s);
            && HasHead(s1)
            && var s2 := s1.(pool := K.Allocation(c, s1.pool, Head(s1), n).0);
               Joinable(s2, n) && Joined(s2, n) == Feed(c, Enter(c, s), |s.running|, n)
  {
    hide Order, Reused, AllocateSlots, HeadJoins, WithHead, Enter, PoolInBounds;
    ReusedIs(c, s);
    var e, s1, i := Enter(c, s), Reused(c, s), |s.running|;
    var p := K.Allocation(c, s1.pool, Head(s1), n).0;
    AllocatedFed(c, e, i, n);
    assert p == K.Allocation(c, e.pool, e.running[i], n).0;
    var x := e.running[i].(numComputed := e.running[i].numComputed + n);
    assert e.running[i := x] == s.running + [x];
    assert Joinable(s1.(pool := p), n);
    assert Joined(s1.(pool := p), n).0 == HeadJoins(WithHead(s1.(pool := p), x));
  }

  /** What one round of pass 2 leaves behind. */
  ghost predicate AdmitOne(
    c: Config, s: State, s': State, budget: nat, batch: seq<Scheduled>, ok: bool, n: nat, entry: seq<Scheduled>)
  {
    if ok then
      && 0 < n <= budget && AdmitReady(c, s', budget - n, batch + entry)
      && Admitted(c, s, budget, batch) == Admitted(c, s', budget - n, batch + entry)
    else Admitted(c, s, budget, batch) == (s', batch)
  }

  lemma HeadFits(c: Config, s: State, budget: nat, batch: seq<Scheduled>)
    requires AdmitNext(c, s, budget, batch) && HeadShare(c, s, budget) > 0
    requires HeadAllocated(c, Reused(c, s), HeadShare(c, s, budget)).1
    ensures var n := HeadShare(c, s, budget);
            var s2 := HeadAllocated(c, Reused(c, s), n).0;
            Joinable(s2, n) && AdmitOne(c, s, Joined(s2, n).0, budget, batch, true, n, [Joined(s2, n).1])
  {
    hide Inv, Order, NoDup, Enterable, Reused, PoolInBounds, Joined, Joinable, Enter, Feed, Fits, HeadShare,
         K.Allocation, K.CanAllocate;
    HeadAllocates(c, s, budget, batch);
    HeadFacts(c, s, batch);
    var s1, n, i := Enter(c, s), HeadShare(c, s, budget), |batch|;
    JoinedIs(c, s, n);
    FeedKeepsInv(c, s1, batch, n);
    FedSizes(c, s1, i, n);
  }

  lemma HeadWaits(c: Config, s: State, budget: nat, batch: seq<Scheduled>)
    requires AdmitNext(c, s, budget, batch) && HeadShare(c, s, budget) > 0
    requires !HeadAllocated(c, Reused(c, s), HeadShare(c, s, budget)).1
    ensures var s1, n := Reused(c, s), HeadShare(c, s, budget);
            && HeadAllocated(c, s1, n).0 == s1 && HasHead(s1) && Releasable(c, s1.pool, Head(s1))
            && AdmitOne(c, s, Returned(c, s1), budget, batch, false, n, [])
  {
    hide Inv, Order, NoDup, Reused, PoolInBounds, Enter, Fits, HeadShare, WithHead, HeadJoins, Releasable, Release,
         AllocateSlots;
    HeadAllocates(c, s, budget, batch);
    HeadFacts(c, s, batch);
    ReusedIs(c, s);
    AbandonKeepsInv(c, s, batch);
    SameRelease(c, Reused(c, s).pool, Enter(c, s).running[|s.running|], Head(Reused(c, s)));
    NoneAllocated(c, Reused(c, s).pool, Head(Reused(c, s)), HeadShare(c, s, budget));
  }

  lemma HeadShareIs(c: Config, s: State, budget: nat)
    requires HasHead(Reused(c, s))
    ensures var r := Head(Reused(c, s)); HeadShare(c, s, budget) == Min(|r.tokens| - r.numComputed, budget)
  {
  }

  lemma NoneAllocated(c: Config, p: Pool, r: Request, n: nat)
    requires !K.Allocation(c, p, r, n).1
    ensures K.Allocation(c, p, r, n).0 == p
  {
  }

  lemma SameRelease(c: Config, p: Pool, r: Request, r': Request)
    requires r.id == r'.id && r.tokens == r'.tokens && r.numComputed == r'.numComputed
    ensures Releasable(c, p, r) == Releasable(c, p, r')
    ensures Releasable(c, p, r) ==> Release(c, p, r) == Release(c, p, r')
  {
    hide CacheFullBlocks, Referenced;
  }

  // ---------------------------------------------------------------- removal

  /** Each request's status names the list it is in, and only running requests hold blocks. */
  ghost predicate Placed(s: State) {
    && NoDup(Order(s))
    && (forall i :: 0 <= i < |s.running| ==> s.running[i].status == Status.Running)
    && (forall i :: 0 <= i < |s.preempted| ==>
          s.preempted[i].status == Status.Preempted && s.preempted[i].id !in s.pool.tables)
    && (forall i :: 0 <= i < |s.waiting| ==> s.waiting[i].status == Status.Waiting && s.waiting[i].id !in s.pool.tables)
  }

  ghost function Removed(c: Config, s: State, id: Id): State {
    if Removable(c, s, id) then Remove(c, s, id) else s
  }

  lemma BasePlaced(c: Config, s: State, dones: seq<nat>)
    requires Base(c, s, dones)
    ensures Placed(s)
  {
    hide PoolOk, TableOk, Order, NoDup;
    forall id | id in s.pool.tables
      ensures forall i :: 0 <= i < |s.preempted| ==> s.preempted[i].id != id
      ensures forall i :: 0 <= i < |s.waiting| ==> s.waiting[i].id != id
    {
      var k :| 0 <= k < |s.running| && s.running[k].id == id;
      IdsApart(s);
    }
  }

  ghost function Ids(rs: seq<Request>): (ids: seq<Id>)
    ensures |ids| == |rs| && forall i :: 0 <= i < |rs| ==> ids[i] == rs[i].id
  {
    seq(|rs|, i requires 0 <= i < |rs| => rs[i].id)
  }

  lemma NoDupIds(rs: seq<Request>)
    requires forall i, j :: 0 <= i < j < |rs| ==> Ids(rs)[i] != Ids(rs)[j]
    ensures NoDup(rs)
  {
    forall i, j | 0 <= i < j < |rs|
      ensures rs[i].id != rs[j].id
    {
      assert Ids(rs)[i] != Ids(rs)[j];
    }
  }

  lemma OrderIds(s: State)
    requires NoDup(Order(s))
    ensures var ids := Ids(s.running) + Ids(s.preempted) + Ids(s.waiting);
            forall i, j :: 0 <= i < j < |ids| ==> ids[i] != ids[j]
  {
    var ids, order := Ids(s.running) + Ids(s.preempted) + Ids(s.waiting), Order(s);
    forall i | 0 <= i < |ids|
      ensures ids[i] == order[i].id
    {
    }
  }

  /** Different lists hold different ids. */
  lemma IdsApart(s: State)
    requires NoDup(Order(s))
    ensures NoDup(s.running) && NoDup(s.preempted) && NoDup(s.waiting)
    ensures forall i, j :: 0 <= i < |s.running| && 0 <= j < |s.preempted| ==> s.running[i].id != s.preempted[j].id
    ensures forall i, j :: 0 <= i < |s.running| && 0 <= j < |s.waiting| ==> s.running[i].id != s.waiting[j].id
    ensures forall i, j :: 0 <= i < |s.preempted| && 0 <= j < |s.waiting| ==> s.preempted[i].id != s.waiting[j].id
  {
    hide Order, Cores, NoDup;
    var a, b, c := Ids(s.running), Ids(s.preempted), Ids(s.waiting);
    OrderIds(s);
    PartsApart(a, b, c);
    NoDupIds(s.running);
    NoDupIds(s.preempted);
    NoDupIds(s.waiting);
  }

  lemma FindsNone(rs: seq<Request>, id: Id)
    requires forall i :: 0 <= i < |rs| ==> rs[i].id != id
    ensures Find(rs, id) == |rs|
  {
  }

  lemma ReleasesNothing(c: Config, p: Pool, r: Request)
    requires Releasable(c, p, r) && r.id !in p.tables
    ensures Release(c, p, r) == p
  {
  }

  lemma RemovedRunning(c: Config, s: State, k: nat)
    requires NoDup(Order(s)) && k < |s.running| && Releasable(c, s.pool, s.running[k])
    ensures Removed(c, s, s.running[k].id) == RemoveRunning(c, s, k)
  {
    hide Order, Releasable, Release, Find;
    IdsApart(s);
    FindUnique(s.running, s.running[k].id, k);
  }

  lemma RemovedPreempted(c: Config, s: State, k: nat)
    requires NoDup(Order(s)) && k < |s.preempted|
    ensures Removed(c, s, s.preempted[k].id) == s.(preempted := Delete(s.preempted, k))
  {
    hide Order, Releasable, Release, Find;
    IdsApart(s);
    FindUnique(s.preempted, s.preempted[k].id, k);
    FindsNone(s.running, s.preempted[k].id);
  }

  lemma RemovedWaiting(c: Config, s: State, k: nat)
    requires NoDup(Order(s)) && k < |s.waiting|
    ensures Removed(c, s, s.waiting[k].id) == s.(waiting := Delete(s.waiting, k))
  {
    hide Order, Releasable, Release, Find;
    IdsApart(s);
    FindUnique(s.waiting, s.waiting[k].id, k);
    FindsNone(s.running, s.waiting[k].id);
    FindsNone(s.preempted, s.waiting[k].id);
  }

  lemma RemovedUnknown(c: Config, s: State, id: Id)
    requires forall i :: 0 <= i < |s.running| ==> s.running[i].id != id
    requires forall i :: 0 <= i < |s.preempted| ==> s.preempted[i].id != id
    requires forall i :: 0 <= i < |s.waiting| ==> s.waiting[i].id != id
    ensures Removed(c, s, id) == s
  {
    FindsNone(s.running, id);
    FindsNone(s.preempted, id);
    FindsNone(s.waiting, id);
  }

  /** Between steps any live request can be removed. */
  lemma AllReleasable(c: Config, s: State)
    requires Inv(c, s, [])
    ensures Placed(s)
    ensures forall i :: 0 <= i < |s.running| ==> Releasable(c, s.pool, s.running[i])
    ensures forall i :: 0 <= i < |s.preempted| ==> Releasable(c, s.pool, s.preempted[i])
    ensures forall i :: 0 <= i < |s.waiting| ==> Releasable(c, s.pool, s.waiting[i])
  {
    hide PoolOk, RunningOk, Order, NoDup;
    BaseInBounds(c, s, Dones(s, []));
    BasePlaced(c, s, Dones(s, []));
    forall i | 0 <= i < |s.running|
      ensures Releasable(c, s.pool, s.running[i])
    {
      ReleaseRunning(c, s, Dones(s, []), i);
    }
  }

  lemma RemovedKeepsInv(c: Config, s: State, id: Id)
    requires Inv(c, s, [])
    ensures Inv(c, Removed(c, s, id), [])
  {
    RemoveKeepsInv(c, s, id);
  }

  ghost function AbortAll(c: Config, s: State, ids: seq<Id>): State
    decreases |ids|
  {
    if ids == [] then s else AbortAll(c, Removed(c, s, ids[0]), ids[1..])
  }

  // ---------------------------------------------------------------- delivery

  ghost predicate Owed(c: Config, s: State, rest: seq<Sampled>) {
    Delivering(c, s, rest) && Deliverable(s, rest)
  }

  ghost function Updated(c: Config, s: State, rest: seq<Sampled>): (State, seq<Output>) {
    if Owed(c, s, rest) then UpdateStep.Update(c, s, rest) else (s, [])
  }

  /** The state with token x appended to running[i]. */
  ghost function Appended(s: State, i: nat, x: Sampled): State {
    if i < |s.running| then s.(running := s.running[i := Grow(s.running[i], x.token)]) else s
  }

  lemma UpdateRound(c: Config, s: State, rest: seq<Sampled>)
    requires Owed(c, s, rest) && rest != []
    ensures HasId(s.running, rest[0].id)
    ensures var i, x := Find(s.running, rest[0].id), rest[0];
            && i < |s.running| && s.running[i].id == x.id
            && var s1, r := Appended(s, i, x), Grow(s.running[i], x.token);
               && Placed(s1) && Releasable(c, s1.pool, r)
               && var reason := FinishReason(c, r, x.eos);
                  var s' := if reason == GoOn then s1 else Removed(c, s1, x.id);
                  && Owed(c, s', rest[1..])
                  && Updated(c, s, rest).0 == Updated(c, s', rest[1..]).0
                  && Updated(c, s, rest).1 == [Output(x.id, x.token, reason)] + Updated(c, s', rest[1..]).1
  {
    hide Delivering, Order, Releasable, Release, RemoveRunning, Placed;
    var i, x := Find(s.running, rest[0].id), rest[0];
    FindsIt(s.running, x.id);
    DeliverKeeps(c, s, rest, i);
    GrownPlaced(c, s, rest, i);
    RemovedRunning(c, Appended(s, i, x), i);
  }

  lemma GrownPlaced(c: Config, s: State, rest: seq<Sampled>, i: nat)
    requires Delivering(c, s, rest) && rest != [] && i < |s.running|
    ensures Placed(Appended(s, i, rest[0])) && NoDup(Order(Appended(s, i, rest[0])))
  {
    hide Base, Order;
    GrowKeepsBase(c, s, Computed(s), i, rest[0].token);
    BasePlaced(c, Appended(s, i, rest[0]), Computed(s));
  }

  lemma OwedNoDup(c: Config, s: State, rest: seq<Sampled>)
    requires Owed(c, s, rest)
    ensures NoDup(Order(s))
  {
  }

  lemma UpdatedAnnounces(c: Config, s: State, rest: seq<Sampled>)
    requires Owed(c, s, rest)
    ensures AllAnnounced(c, s.running, rest, Updated(c, s, rest).1)
  {
    hide Delivering, Deliverable, AllAnnounced;
    UpdateAnnounces(c, s, rest);
  }

  lemma UpdateEnd(c: Config, s: State)
    requires Owed(c, s, [])
    ensures Updated(c, s, []) == (s, [])
  {
  }
}
