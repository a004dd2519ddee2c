/** Scheduling keeps the cache truthful: every entry that a running request counts as
    computed, and every published block, holds what a lone decoder would have there. */
module StepContent {
  import opened Types
  import opened Arith
  import opened CachePool
  import opened PoolInvariant
  import opened PoolContent
  import opened Decoder
  import opened SchedulerModel
  import opened ScheduleStep

  ghost predicate Universe(c: Config, U: iset<seq<Token>>) {
    HashTrusted(c, U) && PrefixClosed(U)
  }

  ghost predicate TokensIn(rs: seq<Request>, U: iset<seq<Token>>) {
    forall i :: 0 <= i < |rs| ==> rs[i].tokens in U
  }

  ghost predicate Content(c: Config, s: State, kv: seq<KV>, U: iset<seq<Token>>, dones: seq<nat>) {
    && |kv| == Span(c.blockSize, c.numBlocks)
    && TokensIn(Order(s), U)
    && CacheOk(c, s.pool.store, kv, U)
    && |dones| == |s.running|
    && forall i :: 0 <= i < |s.running| ==>
         TableHolds(c, kv, Table(s.pool, s.running[i].id), s.running[i].tokens, dones[i])
  }

  lemma RunningIn(s: State, U: iset<seq<Token>>, i: nat)
    requires TokensIn(Order(s), U) && i < |s.running|
    ensures s.running[i].tokens in U
  {
    assert Order(s)[i] == Core(s.running[i]);
  }

  lemma HeadIn(s: State, U: iset<seq<Token>>)
    requires TokensIn(Order(s), U) && HasHead(s)
    ensures Head(s).tokens in U
  {
    assert Order(s)[|s.running|] == Core(Head(s));
  }

  lemma OthersTable(p: Pool, p': Pool, id: Id, o: Id)
    requires OthersKept(p, p', id) && o != id
    ensures Table(p', o) == Table(p, o)
  {
  }

  lemma ReleaseKeepsCache(c: Config, s: State, kv: seq<KV>, U: iset<seq<Token>>, dones: seq<nat>, i: nat)
    requires Universe(c, U) && Base(c, s, dones) && Content(c, s, kv, U, dones)
    requires i < |s.running| && dones[i] == s.running[i].numComputed
    ensures Releasable(c, s.pool, s.running[i])
    ensures CacheOk(c, Release(c, s.pool, s.running[i]).store, kv, U)
  {
    hide PoolOk, TableOk, Order, HashTrusted, PrefixClosed, CacheOk, TableHolds, OthersKept, CacheFullBlocks;
    ReleaseRunning(c, s, dones, i);
    RunningIn(s, U, i);
    var r := s.running[i];
    assert RunningOk(c, s.pool, r, dones[i]);
    if r.id in s.pool.tables {
      ReleaseContent(c, s.pool, kv, U, r.id, r.tokens, dones[i], r.numComputed);
    }
  }

  lemma PreemptKeepsContent(c: Config, s: State, kv: seq<KV>, U: iset<seq<Token>>, batch: seq<Scheduled>)
    requires Universe(c, U) && Inv(c, s, batch) && |batch| < |s.running| && Content(c, s, kv, U, Dones(s, batch))
    ensures Releasable(c, s.pool, s.running[|s.running| - 1])
    ensures |batch| <= |PreemptLast(c, s).running|
            && Content(c, PreemptLast(c, s), kv, U, Dones(PreemptLast(c, s), batch))
  {
    hide Base, EntryOk, Universe, Order, CacheOk, TableHolds, OthersKept, Releasable, Release;
    var n, dones := |s.running| - 1, Dones(s, batch);
    ReleaseKeepsCache(c, s, kv, U, dones, n);
    PreemptFrame(c, s, dones);
    PreemptKeepsOrder(c, s);
    var s' := PreemptLast(c, s);
    forall i | 0 <= i < n
      ensures TableHolds(c, kv, Table(s'.pool, s'.running[i].id), s'.running[i].tokens, Dones(s', batch)[i])
    {
      OthersTable(s.pool, s'.pool, s.running[n].id, s.running[i].id);
      assert TableHolds(c, kv, Table(s.pool, s.running[i].id), s.running[i].tokens, dones[i]);
    }
  }

  lemma FeedKeepsCache(c: Config, s: State, kv: seq<KV>, U: iset<seq<Token>>, dones: seq<nat>, i: nat, n: nat)
    requires Universe(c, U) && Base(c, s, dones) && Content(c, s, kv, U, dones)
    requires i < |s.running| && dones[i] == s.running[i].numComputed && Feedable(c, s.pool, s.running[i], n)
    ensures var s' := Feed(c, s, i, n).0;
            && CacheOk(c, s'.pool.store, kv, U)
            && TableHolds(c, kv, Table(s'.pool, s.running[i].id), s.running[i].tokens, dones[i])
  {
    hide PoolOk, TableOk, Order, HashTrusted, PrefixClosed, CacheOk, TableHolds, AllocateSlots;
    RunningIn(s, U, i);
    var r := s.running[i];
    assert RunningOk(c, s.pool, r, dones[i]);
    AllocateContent(c, s.pool, kv, U, r.id, r.tokens, dones[i], r.numComputed, n);
  }

  lemma FeedKeepsContent(c: Config, s: State, kv: seq<KV>, U: iset<seq<Token>>, batch: seq<Scheduled>, n: nat)
    requires Universe(c, U) && Inv(c, s, batch) && |batch| < |s.running| && Content(c, s, kv, U, Dones(s, batch))
    requires n > 0 && Feedable(c, s.pool, s.running[|batch|], n)
    ensures var (s', e) := Feed(c, s, |batch|, n); Content(c, s', kv, U, Dones(s', batch + [e]))
  {
    hide Base, EntryOk, Universe, Order, CacheOk, TableHolds, OthersKept, Feedable;
    var i, dones := |batch|, Dones(s, batch);
    FeedKeepsCache(c, s, kv, U, dones, i, n);
    FeedFrame(c, s, dones, i, n);
    FeedKeepsOrder(c, s, i, n);
    var (s', e) := Feed(c, s, i, n);
    forall j | 0 <= j < |s.running|
      ensures TableHolds(c, kv, Table(s'.pool, s'.running[j].id), s'.running[j].tokens, Dones(s', batch + [e])[j])
    {
      if j != i {
        OthersTable(s.pool, s'.pool, s.running[i].id, s.running[j].id);
        assert TableHolds(c, kv, Table(s.pool, s.running[j].id), s.running[j].tokens, dones[j]);
      }
    }
  }

  lemma EnterKeepsContent(c: Config, s: State, kv: seq<KV>, U: iset<seq<Token>>, batch: seq<Scheduled>)
    requires Universe(c, U) && Inv(c, s, batch) && |batch| <= |s.running| < c.maxSeqs && HasHead(s)
    requires Content(c, s, kv, U, Dones(s, batch))
    ensures Enterable(c, s) && Content(c, Enter(c, s), kv, U, Dones(Enter(c, s), batch))
  {
    hide Base, EntryOk, PoolOk, HashTrusted, Order, CacheOk, TableHolds, OthersKept, ReusePrefix, Releasable;
    var n, dones := |s.running|, Dones(s, batch);
    EnterFrame(c, s, dones);
    EnterKeepsOrder(c, s);
    HeadIn(s, U);
    var h, s' := Head(s), Enter(c, s);
    EnterCache(c, s, kv, U, dones);
    forall i | 0 <= i < |s'.running|
      ensures TableHolds(c, kv, Table(s'.pool, s'.running[i].id), s'.running[i].tokens, Dones(s', batch)[i])
    {
      if i < n {
        OthersTable(s.pool, s'.pool, h.id, s.running[i].id);
        assert TableHolds(c, kv, Table(s.pool, s.running[i].id), s.running[i].tokens, dones[i]);
      }
    }
  }

  lemma EnterCache(c: Config, s: State, kv: seq<KV>, U: iset<seq<Token>>, dones: seq<nat>)
    requires PrefixClosed(U) && Base(c, s, dones) && HasHead(s) && Head(s).tokens in U
             && CacheOk(c, s.pool.store, kv, U)
    ensures Head(s).tokens != [] && PoolInBounds(s.pool)
    ensures var (p', n) := ReusePrefix(c, s.pool, Head(s).id, Head(s).tokens);
            CacheOk(c, p'.store, kv, U) && TableHolds(c, kv, Table(p', Head(s).id), Head(s).tokens, n)
  {
    hide PoolOk, RunningOk, PrefixClosed, CacheOk, TableHolds, ReusePrefix, Order;
    BaseInBounds(c, s, dones);
    HeadFresh(c, s, dones);
    ReuseContent(c, s.pool, kv, U, Head(s).id, Head(s).tokens);
  }

  lemma AbandonKeepsContent(c: Config, s: State, kv: seq<KV>, U: iset<seq<Token>>, batch: seq<Scheduled>)
    requires Universe(c, U) && Inv(c, s, batch) && |s.running| < c.maxSeqs && HasHead(s)
    requires Content(c, s, kv, U, Dones(s, batch))
    ensures Enterable(c, s) && Content(c, Abandon(c, s), kv, U, Dones(Abandon(c, s), batch))
  {
    hide Base, EntryOk, Universe, Order, CacheOk, TableHolds, OthersKept, Releasable, Release, Enter;
    var n, dones := |s.running|, Dones(s, batch);
    EnterFrame(c, s, dones);
    AbandonCache(c, s, kv, U, batch);
    var s' := Abandon(c, s);
    assert Dones(s', batch) == dones;
    SameQueues(c, s);
    forall i | 0 <= i < n
      ensures TableHolds(c, kv, Table(s'.pool, s'.running[i].id), s'.running[i].tokens, dones[i])
    {
      OthersTable(s.pool, s'.pool, Head(s).id, s.running[i].id);
    }
  }

  lemma SameQueues(c: Config, s: State)
    requires Enterable(c, s)
    ensures Order(Abandon(c, s)) == Order(s)
  {
    hide Enter, Release;
  }

  lemma AbandonCache(c: Config, s: State, kv: seq<KV>, U: iset<seq<Token>>, batch: seq<Scheduled>)
    requires Universe(c, U) && Inv(c, s, batch) && |s.running| < c.maxSeqs && HasHead(s)
    requires Content(c, s, kv, U, Dones(s, batch))
    ensures Enterable(c, s) && CacheOk(c, Abandon(c, s).pool.store, kv, U)
  {
    hide Base, EntryOk, Universe, Order, CacheOk, TableHolds, Releasable, Release, ReusePrefix;
    EnterKeepsContent(c, s, kv, U, batch);
    EnterKeepsBase(c, s, Dones(s, batch));
    var n, s1 := |s.running|, Enter(c, s);
    assert Dones(s1, batch) == Dones(s, batch) + [s1.running[n].numComputed];
    ReleaseKeepsCache(c, s1, kv, U, Dones(s1, batch), n);
  }

  // ---------------------------------------------------------------- the step

  lemma {:induction false} SecureKeepsContent(
    c: Config, s: State, kv: seq<KV>, U: iset<seq<Token>>, batch: seq<Scheduled>, i: nat, n: nat)
    requires Universe(c, U) && Inv(c, s, batch) && i == |batch| < |s.running| && Content(c, s, kv, U, Dones(s, batch))
    requires n > 0 && s.running[i].numComputed + n <= |s.running[i].tokens|
    ensures var s' := Secure(c, s, batch, i, n).0; |batch| <= |s'.running| && Content(c, s', kv, U, Dones(s', batch))
    decreases |s.running|
  {
    hide Inv, Universe, Content, Release, Releasable, Askable, Fits;
    NextAskable(c, s, batch, n);
    if !Fits(c, s.pool, s.running[i], n) {
      PreemptKeepsInv(c, s, batch);
      PreemptKeepsContent(c, s, kv, U, batch);
      if i < |s.running| - 1 { SecureKeepsContent(c, PreemptLast(c, s), kv, U, batch, i, n); }
    }
  }

  lemma {:induction false} ServeKeepsContent(
    c: Config, s: State, kv: seq<KV>, U: iset<seq<Token>>, budget: nat, batch: seq<Scheduled>)
    requires Universe(c, U) && Inv(c, s, batch) && Content(c, s, kv, U, Dones(s, batch))
    ensures var (s', _, batch') := ServeRunning(c, s, budget, batch); Content(c, s', kv, U, Dones(s', batch'))
    decreases |s.running| - |batch|
  {
    hide Inv, Universe, Content, Askable, Fits, Secure, Dones, Feed;
    var i := |batch|;
    InvBatch(c, s, batch);
    if i < |s.running| && budget > 0 && i < c.maxSeqs {
      var n := ShareOf(s.running[i], budget);
      NextShare(c, s, batch, budget);
      SecureMoves(c, s, batch, i, n);
      SecureKeepsContent(c, s, kv, U, batch, i, n);
      var (s1, ok) := Secure(c, s, batch, i, n);
      if ok {
        FeedKeepsInv(c, s1, batch, n);
        FeedKeepsContent(c, s1, kv, U, batch, n);
        FedSizes(c, s1, i, n);
        var (s2, e) := Feed(c, s1, i, n);
        ServeKeepsContent(c, s2, kv, U, budget - n, batch + [e]);
      }
    }
  }

  lemma {:induction false} AdmitKeepsContent(
    c: Config, s: State, kv: seq<KV>, U: iset<seq<Token>>, budget: nat, batch: seq<Scheduled>)
    requires Universe(c, U) && Inv(c, s, batch) && Content(c, s, kv, U, Dones(s, batch))
    requires |batch| == |s.running| || budget == 0 || |batch| >= c.maxSeqs
    ensures var (s', _, batch') := AdmitQueued(c, s, budget, batch); Content(c, s', kv, U, Dones(s', batch'))
    decreases |s.preempted| + |s.waiting|
  {
    hide Inv, Universe, Content, Askable, Fits, Release, Dones, Feed, Enter, Abandon;
    if HasHead(s) && budget > 0 && |batch| < c.maxSeqs {
      var i := |batch|;
      EnterKeepsInv(c, s, batch);
      EnterKeepsContent(c, s, kv, U, batch);
      EnteredSize(c, s);
      var s1 := Enter(c, s);
      NextShare(c, s1, batch, budget);
      var n := ShareOf(s1.running[i], budget);
      NextAskable(c, s1, batch, n);
      if Fits(c, s1.pool, s1.running[i], n) {
        FeedKeepsInv(c, s1, batch, n);
        FeedKeepsContent(c, s1, kv, U, batch, n);
        FedSizes(c, s1, i, n);
        var (s2, e) := Feed(c, s1, i, n);
        AdmitKeepsContent(c, s2, kv, U, budget - n, batch + [e]);
      } else {
        AbandonKeepsContent(c, s, kv, U, batch);
      }
    }
  }

  /** After scheduling, each entry of the batch finds its whole context in the cache. */
  lemma ScheduleKeepsContent(c: Config, s: State, kv: seq<KV>, U: iset<seq<Token>>)
    requires Universe(c, U) && Inv(c, s, []) && Content(c, s, kv, U, Dones(s, []))
    ensures var (s', batch) := Schedule(c, s); Content(c, s', kv, U, Dones(s', batch))
  {
    hide Inv, Universe, Content, ServeRunning, AdmitQueued, Dones;
    var (s1, budget, batch) := ServeRunning(c, s, c.maxScheduledTokens, []);
    ServeKeepsContent(c, s, kv, U, c.maxScheduledTokens, []);
    if |s1.preempted| == |s.preempted| { AdmitKeepsContent(c, s1, kv, U, budget, batch); }
  }
}
