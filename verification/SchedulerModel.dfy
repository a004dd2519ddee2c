/** The continuous-batching scheduler as functions on values. */
module SchedulerModel {
  import opened Types
  import opened Arith
  import opened BlockStore
  import opened CachePool
  import opened PoolInvariant

  datatype State = State(running: seq<Request>, preempted: seq<Request>, waiting: seq<Request>, pool: Pool)

  /** What scheduling never changes about a request. */
  function Core(r: Request): Request {
    r.(status := Waiting, numPrefill := 0, numComputed := 0)
  }

  function Cores(rs: seq<Request>): (cs: seq<Request>)
    ensures |cs| == |rs| && forall i :: 0 <= i < |rs| ==> cs[i] == Core(rs[i])
  {
    seq(|rs|, i requires 0 <= i < |rs| => Core(rs[i]))
  }

  lemma CoresEnds(rs: seq<Request>)
    requires rs != []
    ensures Cores(rs) == [Core(rs[0])] + Cores(rs[1..])
    ensures Cores(rs) == Cores(rs[..|rs| - 1]) + [Core(rs[|rs| - 1])]
  {
  }

  lemma CoresSame(rs: seq<Request>, rs': seq<Request>)
    requires |rs| == |rs'| && forall i :: 0 <= i < |rs| ==> Core(rs[i]) == Core(rs'[i])
    ensures Cores(rs) == Cores(rs')
  {
  }

  lemma Regroup<T>(a: seq<T>, x: T, b: seq<T>, c: seq<T>)
    ensures (a + [x]) + b + c == a + ([x] + b) + c
  {
  }

  lemma Shift<T>(a: seq<T>, x: T, b: seq<T>)
    ensures (a + [x]) + b == a + ([x] + b)
  {
  }

  /** The live requests in arrival order: what first-come-first-served has to preserve. */
  function Order(s: State): seq<Request> {
    Cores(s.running) + Cores(s.preempted) + Cores(s.waiting)
  }

  function Initial(c: Config): State {
    State([], [], [],
          Pool(Fresh(c.numBlocks), map[]))
  }

  // ---------------------------------------------------------------- invariant

  ghost predicate TokensOk(c: Config, r: Request) {
    && 0 < r.numPrompt <= |r.tokens| < c.maxModelLen
    && r.numPrefill <= |r.tokens|
  }

  /** A running request holds exactly the blocks its computed tokens need, of which the
      published ones lie within the first `done` tokens. */
  ghost predicate RunningOk(c: Config, p: Pool, r: Request, done: nat) {
    && r.status == Running
    && done <= r.numComputed <= |r.tokens|
    && |Table(p, r.id)| == CeilDiv(r.numComputed, c.blockSize)
    && TableOk(c, p.store, Table(p, r.id), r.tokens, done)
  }

  ghost predicate IdleOk(c: Config, r: Request, status: Status) {
    TokensOk(c, r) && r.status == status && r.numComputed == 0
  }

  ghost predicate HasId(rs: seq<Request>, id: Id) {
    exists i :: 0 <= i < |rs| && rs[i].id == id
  }

  ghost predicate NoDup(rs: seq<Request>) {
    forall i, j :: 0 <= i < j < |rs| ==> rs[i].id != rs[j].id
  }

  /** What holds at every point of a step; dones[i] counts the tokens of running[i] whose
      entries are already in the cache. */
  ghost predicate Base(c: Config, s: State, dones: seq<nat>) {
    && PoolOk(s.pool) && |s.pool.store.blocks| == c.numBlocks
    && NoDup(Order(s))
    && |dones| == |s.running| <= c.maxSeqs
    && (forall id :: id in s.pool.tables ==> HasId(s.running, id))
    && (forall i :: 0 <= i < |s.running| ==> RunningOk(c, s.pool, s.running[i], dones[i]))
    && (forall i :: 0 <= i < |s.preempted| ==> IdleOk(c, s.preempted[i], Preempted))
    && (forall i :: 0 <= i < |s.waiting| ==> IdleOk(c, s.waiting[i], Waiting))
  }

  lemma BaseInBounds(c: Config, s: State, dones: seq<nat>)
    requires Base(c, s, dones)
    ensures PoolInBounds(s.pool)
  {
    OkPoolInBounds(s.pool);
  }

  lemma RunningDistinct(s: State, i: nat, j: nat)
    requires NoDup(Order(s)) && i < |s.running| && j < |s.running| && i != j
    ensures s.running[i].id != s.running[j].id
  {
    var order := Order(s);
    assert order[i] == Core(s.running[i]) && order[j] == Core(s.running[j]);
  }

  lemma RunningKept(c: Config, p: Pool, p': Pool, id: Id, r: Request, done: nat)
    requires RunningOk(c, p, r, done) && OthersKept(p, p', id) && r.id != id
    ensures RunningOk(c, p', r, done)
  {
    hide Chain;
    var t := Table(p, r.id);
    assert forall i :: 0 <= i < |t| ==> SameTag(p.store, p'.store, t[i]);
  }

  // ---------------------------------------------------------------- preemption

  /** Sends the youngest running request back, to the front of the preempted queue. */
  function PreemptLast(c: Config, s: State): State
    requires s.running != [] && Releasable(c, s.pool, s.running[|s.running| - 1])
  {
    var n := |s.running| - 1;
    var r := s.running[n];
    State(s.running[..n],
          [r.(numComputed := 0, status := Preempted)] + s.preempted,
          s.waiting,
          Release(c, s.pool, r))
  }

  lemma ReleaseRunning(c: Config, s: State, dones: seq<nat>, i: nat)
    requires Base(c, s, dones) && i < |s.running|
    ensures var r := s.running[i];
            && Releasable(c, s.pool, r)
            && var p' := Release(c, s.pool, r);
               PoolOk(p') && |p'.store.blocks| == |s.pool.store.blocks|
               && OthersKept(s.pool, p', r.id) && p'.tables == s.pool.tables - {r.id}
  {
    hide PoolOk, TableOk, NoDup, Order;
    BaseInBounds(c, s, dones);
    var r := s.running[i];
    if r.id in s.pool.tables {
      ReleaseKeepsOk(c, s.pool, r.id, r.tokens, dones[i], r.numComputed);
    } else {
      HeldWithout(s.pool.tables, r.id);
    }
  }

  lemma PreemptKeepsOrder(c: Config, s: State)
    requires s.running != [] && Releasable(c, s.pool, s.running[|s.running| - 1])
    ensures Order(PreemptLast(c, s)) == Order(s)
  {
    hide Releasable, Release, Cores;
    var s', r := PreemptLast(c, s), s.running[|s.running| - 1];
    CoresEnds(s.running);
    CoresEnds(s'.preempted);
    Regroup(Cores(s'.running), Core(r), Cores(s.preempted), Cores(s.waiting));
  }

  lemma PreemptKeepsBase(c: Config, s: State, dones: seq<nat>)
    requires Base(c, s, dones) && s.running != []
    requires TokensOk(c, s.running[|s.running| - 1])
    ensures Releasable(c, s.pool, s.running[|s.running| - 1])
    ensures var s' := PreemptLast(c, s);
            Base(c, s', dones[..|s.running| - 1]) && Order(s') == Order(s)
  {
    hide PoolOk, Releasable, Release, RunningOk, OthersKept, NoDup, Order;
    var n := |s.running| - 1;
    ReleaseRunning(c, s, dones, n);
    var s' := PreemptLast(c, s);
    var r := s.running[n];
    PreemptKeepsOrder(c, s);
    forall i | 0 <= i < n
      ensures RunningOk(c, s'.pool, s'.running[i], dones[i])
    {
      RunningDistinct(s, i, n);
      RunningKept(c, s.pool, s'.pool, r.id, s.running[i], dones[i]);
    }
    forall id | id in s'.pool.tables
      ensures HasId(s'.running, id)
    {
      HasIdFront(s.running, id);
    }
  }

  lemma HasIdFront(rs: seq<Request>, id: Id)
    requires HasId(rs, id) && rs[|rs| - 1].id != id
    ensures HasId(rs[..|rs| - 1], id)
  {
    var i :| 0 <= i < |rs| && rs[i].id == id;
    assert rs[..|rs| - 1][i].id == id;
  }

  // ---------------------------------------------------------------- feeding a running request

  /** How many of r's tokens a step may compute under the remaining budget. */
  function ShareOf(r: Request, budget: nat): int {
    Min(|r.tokens| - r.numComputed, budget)
  }

  ghost predicate Askable(c: Config, p: Pool, r: Request, n: nat) {
    && PoolInBounds(p) && r.numComputed + n <= |r.tokens| && NumMissing(c, p, r.id, r.numComputed + n) >= 0
  }

  function Fits(c: Config, p: Pool, r: Request, n: nat): bool
    requires Askable(c, p, r, n)
  {
    AllocateSlots(c, p, r.id, r.tokens, r.numComputed, n).1
  }

  ghost predicate Feedable(c: Config, p: Pool, r: Request, n: nat) {
    Askable(c, p, r, n) && Fits(c, p, r, n)
  }

  lemma NeedsMoreBlocks(c: Config, p: Pool, r: Request, done: nat, n: nat)
    requires RunningOk(c, p, r, done)
    ensures NumMissing(c, p, r.id, r.numComputed + n) >= 0
  {
    hide TableOk;
    CeilDivBounds(r.numComputed + n, c.blockSize);
    CeilDivLeast(r.numComputed, c.blockSize, CeilDiv(r.numComputed + n, c.blockSize));
  }

  function EntryOf(p: Pool, r: Request, n: nat): Scheduled
    requires r.id in p.tables && r.numComputed + n <= |r.tokens|
  {
    Scheduled(r.id,
              r.numComputed < r.numPrefill,
              r.numComputed + n >= r.numPrefill,
              r.numComputed,
              r.tokens[r.numComputed..r.numComputed + n],
              p.tables[r.id],
              r.params)
  }

  function Feed(c: Config, s: State, i: nat, n: nat): (State, Scheduled)
    requires i < |s.running| && Feedable(c, s.pool, s.running[i], n)
  {
    var r := s.running[i];
    var p := AllocateSlots(c, s.pool, r.id, r.tokens, r.numComputed, n).0;
    (s.(running := s.running[i := r.(numComputed := r.numComputed + n)], pool := p), EntryOf(p, r, n))
  }

  lemma FeedKeepsOrder(c: Config, s: State, i: nat, n: nat)
    requires i < |s.running| && Feedable(c, s.pool, s.running[i], n)
    ensures Order(Feed(c, s, i, n).0) == Order(s)
  {
    hide Feedable, AllocateSlots;
    CoresSame(Feed(c, s, i, n).0.running, s.running);
  }

  lemma FeedKeepsBase(c: Config, s: State, dones: seq<nat>, i: nat, n: nat)
    requires Base(c, s, dones) && i < |s.running| && dones[i] == s.running[i].numComputed
    requires Feedable(c, s.pool, s.running[i], n)
    ensures var (s', e) := Feed(c, s, i, n);
            Base(c, s', dones) && Order(s') == Order(s)
  {
    hide PoolOk, AllocateSlots, OthersKept, NoDup, TableOk, Order;
    var r := s.running[i];
    assert RunningOk(c, s.pool, r, dones[i]);
    AllocateKeepsOk(c, s.pool, r.id, r.tokens, dones[i], r.numComputed, n);
    var s' := Feed(c, s, i, n).0;
    FeedKeepsOrder(c, s, i, n);
    forall j | 0 <= j < |s.running|
      ensures RunningOk(c, s'.pool, s'.running[j], dones[j])
    {
      if j != i {
        RunningDistinct(s, i, j);
        RunningKept(c, s.pool, s'.pool, r.id, s.running[j], dones[j]);
      }
    }
    forall id | id in s'.pool.tables
      ensures HasId(s'.running, id)
    {
      if id == r.id { assert s'.running[i].id == id; }
      else {
        assert id in s'.pool.tables - {r.id};
        assert HasId(s.running, id);
        var j :| 0 <= j < |s.running| && s.running[j].id == id;
        assert s'.running[j].id == id;
      }
    }
  }

  // ---------------------------------------------------------------- admission

  predicate HasHead(s: State) {
    s.preempted != [] || s.waiting != []
  }

  function Head(s: State): Request
    requires HasHead(s)
  {
    if s.preempted != [] then s.preempted[0] else s.waiting[0]
  }

  /** The oldest request that is not running joins the running ones, with whatever prefix
      of it the cache holds counted as computed. */
  function Enter(c: Config, s: State): State
    requires HasHead(s) && Head(s).tokens != [] && PoolInBounds(s.pool)
  {
    var h := Head(s);
    var (p, n) := ReusePrefix(c, s.pool, h.id, h.tokens);
    State(s.running + [h.(numComputed := n, numPrefill := |h.tokens|, status := Running)],
          if s.preempted != [] then s.preempted[1..] else [],
          if s.preempted != [] then s.waiting else s.waiting[1..],
          p)
  }

  ghost predicate Enterable(c: Config, s: State) {
    && HasHead(s) && Head(s).tokens != [] && PoolInBounds(s.pool)
    && Releasable(c, Enter(c, s).pool, Enter(c, s).running[|s.running|])
  }

  /** A failed admission gives the reused blocks back; the queues are as before. */
  function Abandon(c: Config, s: State): State
    requires Enterable(c, s)
  {
    s.(pool := Release(c, Enter(c, s).pool, Enter(c, s).running[|s.running|]))
  }

  lemma HeadFresh(c: Config, s: State, dones: seq<nat>)
    requires Base(c, s, dones) && HasHead(s)
    ensures TokensOk(c, Head(s)) && Head(s).id !in s.pool.tables
    ensures forall i :: 0 <= i < |s.running| ==> s.running[i].id != Head(s).id
  {
    hide PoolOk, RunningOk;
    var order := Order(s);
    assert order[|s.running|] == Core(Head(s));
    assert forall i :: 0 <= i < |s.running| ==> order[i] == Core(s.running[i]);
  }

  lemma HeadMoves(rs: seq<Request>, r: Request, queue: seq<Request>, rest: seq<Request>)
    requires queue != [] && Core(r) == Core(queue[0])
    ensures Cores(rs + [r]) + Cores(queue[1..]) + rest == Cores(rs) + Cores(queue) + rest
  {
    hide Cores;
    CoresEnds(rs + [r]);
    assert (rs + [r])[..|rs|] == rs;
    CoresEnds(queue);
    Regroup(Cores(rs), Core(r), Cores(queue[1..]), rest);
  }

  lemma EnterKeepsOrder(c: Config, s: State)
    requires HasHead(s) && Head(s).tokens != [] && PoolInBounds(s.pool)
    ensures Order(Enter(c, s)) == Order(s)
  {
    hide ReusePrefix, PoolInBounds, Cores;
    var s' := Enter(c, s);
    var r := s'.running[|s.running|];
    if s.preempted != [] {
      HeadMoves(s.running, r, s.preempted, Cores(s.waiting));
    } else {
      HeadMoves(s.running, r, s.waiting, []);
    }
  }

  lemma EnterKeepsBase(c: Config, s: State, dones: seq<nat>)
    requires Base(c, s, dones) && HasHead(s) && |s.running| < c.maxSeqs
    ensures Enterable(c, s)
    ensures var s' := Enter(c, s);
            var r := s'.running[|s.running|];
            && Base(c, s', dones + [r.numComputed]) && Order(s') == Order(s)
            && TokensOk(c, r) && r.numComputed < |r.tokens| == r.numPrefill
  {
    hide PoolOk, RunningOk, OthersKept, NoDup, Order, ReusePrefix, Releasable;
    BaseInBounds(c, s, dones);
    HeadFresh(c, s, dones);
    var h := Head(s);
    var s' := Enter(c, s);
    var n := s'.running[|s.running|].numComputed;
    ReuseKeepsOk(c, s.pool, h.id, h.tokens);
    EnteredOk(c, s.pool, s'.running[|s.running|]);
    EnterKeepsOrder(c, s);
    forall i | 0 <= i < |s'.running|
      ensures RunningOk(c, s'.pool, s'.running[i], (dones + [n])[i])
    {
      if i < |s.running| {
        assert RunningOk(c, s.pool, s.running[i], dones[i]);
        RunningKept(c, s.pool, s'.pool, h.id, s.running[i], dones[i]);
      }
    }
    forall id | id in s'.pool.tables
      ensures HasId(s'.running, id)
    {
      if id == h.id { assert s'.running[|s.running|].id == id; }
      else {
        assert id in s'.pool.tables - {h.id};
        var i :| 0 <= i < |s.running| && s.running[i].id == id;
        assert s'.running[i].id == id;
      }
    }
    ReleaseRunning(c, s', dones + [n], |s.running|);
  }

  lemma EnteredOk(c: Config, p: Pool, r: Request)
    requires PoolOk(p) && PoolInBounds(p) && r.id !in p.tables && r.tokens != []
    requires r.status == Running && r.numComputed == ReusePrefix(c, p, r.id, r.tokens).1
    ensures RunningOk(c, ReusePrefix(c, p, r.id, r.tokens).0, r, r.numComputed)
  {
    hide PoolOk, OthersKept, ReusePrefix, TableOk;
    ReuseKeepsOk(c, p, r.id, r.tokens);
    var t := Table(ReusePrefix(c, p, r.id, r.tokens).0, r.id);
    CeilDivLeast(r.numComputed, c.blockSize, |t|);
    CeilDivBounds(r.numComputed, c.blockSize);
    if CeilDiv(r.numComputed, c.blockSize) < |t| {
      SpanGrows(c.blockSize, CeilDiv(r.numComputed, c.blockSize), |t|);
    }
  }

  lemma AbandonKeepsBase(c: Config, s: State, dones: seq<nat>)
    requires Base(c, s, dones) && HasHead(s) && |s.running| < c.maxSeqs
    ensures Enterable(c, s) && Base(c, Abandon(c, s), dones)
  {
    hide PoolOk, RunningOk, OthersKept, NoDup, ReusePrefix, Releasable, Release;
    EnterKeepsBase(c, s, dones);
    HeadFresh(c, s, dones);
    var h, s1, n := Head(s), Enter(c, s), |s.running|;
    var dones1 := dones + [s1.running[n].numComputed];
    ReleaseRunning(c, s1, dones1, n);
    var s' := Abandon(c, s);
    forall i | 0 <= i < n
      ensures RunningOk(c, s'.pool, s'.running[i], dones[i])
    {
      assert s1.running[i] == s.running[i] && dones1[i] == dones[i];
      assert RunningOk(c, s1.pool, s1.running[i], dones1[i]);
      RunningKept(c, s1.pool, s'.pool, h.id, s.running[i], dones[i]);
    }
    forall id | id in s'.pool.tables
      ensures HasId(s'.running, id)
    {
      HasIdFront(s1.running, id);
      assert s1.running[..n] == s.running;
    }
  }
}
