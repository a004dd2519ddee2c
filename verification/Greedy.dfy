/** A step wastes nothing: it computes as much as the limits and the pool allow, request after
    request in the order of the queues. */
module Greedy {
  import opened Types
  import opened CachePool
  import opened SchedulerModel
  import opened ScheduleStep
  import opened StepTheorems

  /** Only the last entry may leave tokens of its request out, and only if the budget is spent. */
  ghost predicate Full(batch: seq<Scheduled>, budget: nat) {
    forall i :: 0 <= i < |batch| && !batch[i].needsSampling ==> i == |batch| - 1 && budget == 0
  }

  /** Entries from `from` on take up their requests where these stood. */
  ghost predicate TakesUp(batch: seq<Scheduled>, running: seq<Request>, from: nat) {
    forall i :: from <= i < |batch| && i < |running| ==>
      batch[i].id == running[i].id && batch[i].offset == running[i].numComputed
  }

  ghost predicate SameIds(xs: seq<Request>, ys: seq<Request>, n: nat) {
    n <= |xs| && n <= |ys| && forall i :: 0 <= i < n ==> xs[i].id == ys[i].id
  }

  /** What a round adds: an entry that takes up its request, and all of what is left of it
      unless that exceeds the budget. */
  lemma FedEntry(c: Config, s: State, batch: seq<Scheduled>, budget: nat)
    requires Inv(c, s, batch) && |batch| < |s.running| && budget > 0
    requires var n := ShareOf(s.running[|batch|], budget);
             n > 0 && Feedable(c, s.pool, s.running[|batch|], n)
    ensures var n := ShareOf(s.running[|batch|], budget);
            var (s', e) := Feed(c, s, |batch|, n);
            && e.id == s.running[|batch|].id && e.offset == s.running[|batch|].numComputed && |e.tokens| == n
            && (!e.needsSampling ==> n == budget)
            && |s'.running| == |s.running| && s'.running[|batch|].id == e.id
            && SameIds(s'.running, s.running, |s.running|)
            && s'.preempted == s.preempted && s'.waiting == s.waiting
            && (forall i :: 0 <= i < |s.running| && i != |batch| ==> s'.running[i] == s.running[i])
  {
    hide Base, AllocateSlots, Askable, Fits;
    var i, n := |batch|, ShareOf(s.running[|batch|], budget);
    assert Ready(s.running[i]);
  }

  lemma FullMore(batch: seq<Scheduled>, budget: nat, e: Scheduled, n: nat)
    requires Full(batch, budget) && 0 < n <= budget && (!e.needsSampling ==> n == budget)
    ensures Full(batch + [e], budget - n)
  {
  }

  // ---------------------------------------------------------------- pass 1

  ghost predicate Served(
    s: State, batch: seq<Scheduled>, budget: nat, s': State, batch': seq<Scheduled>, budget': nat)
  {
    && (Full(batch, budget) ==> Full(batch', budget'))
    && TakesUp(batch', s.running, |batch|)
    && |s'.running| <= |s.running| && SameIds(s'.running, s.running, |s'.running|)
    && |s'.preempted| + |s'.running| == |s.preempted| + |s.running| && s'.waiting == s.waiting
  }

  /** Pass 1 goes on from the states s1, after the slots were secured, and s2, after the next
      request was fed. */
  lemma ServedOn(
    s: State, batch: seq<Scheduled>, budget: nat, s1: State, s2: State, e: Scheduled, n: nat, s': State,
    batch': seq<Scheduled>, budget': nat)
    requires 0 < n <= budget && |batch| < |s1.running| <= |s.running|
    requires forall i :: 0 <= i < |s1.running| ==> s1.running[i] == s.running[i]
    requires |s1.preempted| + |s1.running| == |s.preempted| + |s.running| && s1.waiting == s.waiting
    requires e.id == s1.running[|batch|].id && e.offset == s1.running[|batch|].numComputed
    requires !e.needsSampling ==> n == budget
    requires |s2.running| == |s1.running| && s2.preempted == s1.preempted && s2.waiting == s1.waiting
    requires s2.running[|batch|].id == e.id
    requires forall i :: 0 <= i < |s1.running| && i != |batch| ==> s2.running[i] == s1.running[i]
    requires Served(s2, batch + [e], budget - n, s', batch', budget')
    requires batch + [e] <= batch' && |batch'| <= |s'.running|
    ensures Served(s, batch, budget, s', batch', budget')
  {
    if Full(batch, budget) { FullMore(batch, budget, e, n); }
    forall i | |batch| <= i < |batch'| && i < |s.running|
      ensures batch'[i].id == s.running[i].id && batch'[i].offset == s.running[i].numComputed
    {
      if i == |batch| { assert batch'[i] == (batch + [e])[i]; }
    }
  }

  lemma {:induction false} ServeGreedy(c: Config, s: State, budget: nat, batch: seq<Scheduled>)
    requires Inv(c, s, batch)
    ensures var (s', budget', batch') := ServeRunning(c, s, budget, batch);
            Served(s, batch, budget, s', batch', budget')
    decreases |s.running| - |batch|
  {
    hide Inv, Order, Askable, Fits, Secure, Feed, Feedable, ShareOf, Served, SameIds;
    InvBatch(c, s, batch);
    var i := |batch|;
    ServedNothing(s, batch, budget);
    if !(i == |s.running| || budget == 0 || i >= c.maxSeqs) {
      var n := ShareOf(s.running[i], budget);
      NextShare(c, s, batch, budget);
      SecureMoves(c, s, batch, i, n);
      var (s1, ok) := Secure(c, s, batch, i, n);
      if ok {
        assert s1.running[i] == s.running[i];
        FeedKeepsInv(c, s1, batch, n);
        FedEntry(c, s1, batch, budget);
        var (s2, e) := Feed(c, s1, i, n);
        ServeGreedy(c, s2, budget - n, batch + [e]);
        var (s3, budget3, batch3) := ServeRunning(c, s2, budget - n, batch + [e]);
        InvBatch(c, s3, batch3);
        ServedOn(s, batch, budget, s1, s2, e, n, s3, batch3, budget3);
      } else {
        ServedStop(s, batch, budget, s1);
      }
    }
  }

  lemma ServedNothing(s: State, batch: seq<Scheduled>, budget: nat)
    ensures Served(s, batch, budget, s, batch, budget)
  {
  }

  lemma ServedStop(s: State, batch: seq<Scheduled>, budget: nat, s': State)
    requires |s'.running| <= |s.running| && forall i :: 0 <= i < |s'.running| ==> s'.running[i] == s.running[i]
    requires |s'.preempted| + |s'.running| == |s.preempted| + |s.running| && s'.waiting == s.waiting
    ensures Served(s, batch, budget, s', batch, budget)
  {
  }

  /** k requests preempted from the young end. */
  ghost predicate Preempted(c: Config, s: State, k: nat, s': State)
    decreases k
  {
    if k == 0 then s' == s
    else
      && s.running != [] && Releasable(c, s.pool, s.running[|s.running| - 1])
      && Preempted(c, PreemptLast(c, s), k - 1, s')
  }

  /** Before k preemptions request i is running and its share of n tokens does not fit. */
  ghost predicate TooFull(c: Config, s: State, i: nat, n: nat, k: nat) {
    exists s': State :: Preempted(c, s, k, s') && Blocked(c, s', i, n)
  }

  ghost predicate Blocked(c: Config, s: State, i: nat, n: nat) {
    i < |s.running| && Askable(c, s.pool, s.running[i], n) && !Fits(c, s.pool, s.running[i], n)
  }

  /** Nobody is preempted without need: securing preempts the youngest requests one by one,
      only as long as the share does not fit, and ends with the slots or without i itself. */
  lemma {:induction false} SecureIsMinimal(c: Config, s: State, batch: seq<Scheduled>, i: nat, n: nat) returns (k: nat)
    requires Inv(c, s, batch) && i == |batch| < |s.running|
    requires n > 0 && s.running[i].numComputed + n <= |s.running[i].tokens|
    ensures var (s', ok) := Secure(c, s, batch, i, n);
            && Preempted(c, s, k, s') && (forall j: nat :: j < k ==> TooFull(c, s, i, n, j))
            && (ok <==> i < |s'.running|) && (ok ==> Feedable(c, s'.pool, s'.running[i], n))
    decreases |s.running|
  {
    hide Inv, Release, Releasable, Order, Askable, Fits;
    InvBatch(c, s, batch);
    NextAskable(c, s, batch, n);
    if Fits(c, s.pool, s.running[i], n) {
      k := 0;
    } else {
      PreemptKeepsInv(c, s, batch);
      var s1 := PreemptLast(c, s);
      assert Preempted(c, s, 0, s) && Blocked(c, s, i, n);
      if i == |s.running| - 1 {
        k := 1;
        assert Preempted(c, s1, 0, s1);
      } else {
        var k' := SecureIsMinimal(c, s1, batch, i, n);
        k := k' + 1;
        forall j: nat | j < k
          ensures TooFull(c, s, i, n, j)
        {
          if j > 0 { OneEarlier(c, s, s1, i, n, j - 1); }
        }
      }
    }
  }

  lemma OneEarlier(c: Config, s: State, s1: State, i: nat, n: nat, j: nat)
    requires s.running != [] && Releasable(c, s.pool, s.running[|s.running| - 1]) && s1 == PreemptLast(c, s)
    requires TooFull(c, s1, i, n, j)
    ensures TooFull(c, s, i, n, j + 1)
  {
    hide Releasable, Release, Blocked;
    var s': State :| Preempted(c, s1, j, s') && Blocked(c, s', i, n);
    assert Preempted(c, s, j + 1, s');
  }

  // ---------------------------------------------------------------- pass 2

  /** The head of the queues was tried under this budget, and its share did not fit. */
  ghost predicate Refused(c: Config, s: State, budget: nat) {
    exists s1: State :: RefusedFrom(c, s1, s, budget)
  }

  ghost predicate RefusedFrom(c: Config, s1: State, s: State, budget: nat) {
    && Enterable(c, s1) && s == Abandon(c, s1)
    && var r := Enter(c, s1).running[|s1.running|];
       var n := if |r.tokens| - r.numComputed <= budget then |r.tokens| - r.numComputed else budget;
       Askable(c, Enter(c, s1).pool, r, n) && !Fits(c, Enter(c, s1).pool, r, n)
  }

  ghost predicate Admitted(
    s: State, batch: seq<Scheduled>, budget: nat, s': State, batch': seq<Scheduled>, budget': nat)
  {
    && (Full(batch, budget) ==> Full(batch', budget'))
    && |s'.running| >= |s.running| && SameIds(s'.running, s.running, |s.running|)
    && |s'.running| + |s'.preempted| + |s'.waiting| == |s.running| + |s.preempted| + |s.waiting|
  }

  lemma AdmittedOn(
    s: State, batch: seq<Scheduled>, budget: nat, s1: State, s2: State, e: Scheduled, n: nat, s': State,
    batch': seq<Scheduled>, budget': nat)
    requires 0 < n <= budget && (!e.needsSampling ==> n == budget)
    requires |s1.running| == |s.running| + 1 && forall i :: 0 <= i < |s.running| ==> s1.running[i] == s.running[i]
    requires |s1.preempted| + |s1.waiting| + 1 == |s.preempted| + |s.waiting|
    requires |s2.running| == |s1.running| && SameIds(s2.running, s1.running, |s1.running|)
    requires s2.preempted == s1.preempted && s2.waiting == s1.waiting
    requires Admitted(s2, batch + [e], budget - n, s', batch', budget')
    ensures Admitted(s, batch, budget, s', batch', budget')
  {
    if Full(batch, budget) { FullMore(batch, budget, e, n); }
  }

  lemma AdmittedNothing(c: Config, s: State, batch: seq<Scheduled>, budget: nat)
    ensures Admitted(s, batch, budget, s, batch, budget)
    ensures Enterable(c, s) ==> Admitted(s, batch, budget, Abandon(c, s), batch, budget)
  {
    hide Enterable, Enter, Release;
  }

  lemma EnterAppends(c: Config, s: State)
    requires Enterable(c, s)
    ensures var s' := Enter(c, s);
            |s'.running| == |s.running| + 1 && forall i :: 0 <= i < |s.running| ==> s'.running[i] == s.running[i]
  {
    hide ReusePrefix, PoolInBounds, Releasable;
  }

  lemma {:induction false} AdmitGreedy(c: Config, s: State, budget: nat, batch: seq<Scheduled>)
    requires Inv(c, s, batch)
    requires |batch| == |s.running| || budget == 0 || |batch| >= c.maxSeqs
    ensures var (s', budget', batch') := AdmitQueued(c, s, budget, batch);
            && Admitted(s, batch, budget, s', batch', budget')
            && (budget' == 0 || |batch'| >= c.maxSeqs || !HasHead(s') || Refused(c, s', budget'))
    decreases |s.preempted| + |s.waiting|
  {
    hide Inv, Feed, Enter, Abandon, Order, Askable, Fits, Release, Admitted, SameIds;
    AdmittedNothing(c, s, batch, budget);
    if HasHead(s) && budget > 0 && |batch| < c.maxSeqs {
      var i := |batch|;
      EnterKeepsInv(c, s, batch);
      EnteredSize(c, s);
      EnterAppends(c, s);
      var s1 := Enter(c, s);
      NextShare(c, s1, batch, budget);
      var n := ShareOf(s1.running[i], budget);
      NextAskable(c, s1, batch, n);
      if Fits(c, s1.pool, s1.running[i], n) {
        FeedKeepsInv(c, s1, batch, n);
        FedEntry(c, s1, batch, budget);
        var (s2, e) := Feed(c, s1, i, n);
        AdmitGreedy(c, s2, budget - n, batch + [e]);
        var (s3, budget3, batch3) := AdmitQueued(c, s2, budget - n, batch + [e]);
        AdmittedOn(s, batch, budget, s1, s2, e, n, s3, batch3, budget3);
      } else {
        AbandonKeepsInv(c, s, batch);
        assert RefusedFrom(c, s, Abandon(c, s), budget);
      }
    }
  }

  // ---------------------------------------------------------------- the whole step

  /** Each running request of the batch is taken up where it stood, and each request of the
      batch gets all that is left of it, only the last perhaps less, if the token budget is
      spent.  Either some running requests were preempted, the youngest ones, and nobody was
      admitted; or nobody was preempted, and the step ended because the budget is spent, the
      batch is full, nobody is queued, or the first in the queue did not fit. */
  ghost predicate GreedyStep(c: Config, s: State, s': State, batch: seq<Scheduled>) {
    && Total(batch) <= c.maxScheduledTokens && Full(batch, c.maxScheduledTokens - Total(batch))
    && TakesUp(batch, s.running, 0)
    && if |s'.running| < |s.running| then
         && SameIds(s'.running, s.running, |s'.running|) && s'.waiting == s.waiting
         && |s'.preempted| + |s'.running| == |s.preempted| + |s.running|
       else
         && SameIds(s'.running, s.running, |s.running|) && |s'.preempted| <= |s.preempted|
         && (|| Total(batch) == c.maxScheduledTokens || |batch| >= c.maxSeqs || !HasHead(s')
             || Refused(c, s', c.maxScheduledTokens - Total(batch)))
  }

  lemma PreemptedStep(c: Config, s: State, s': State, batch: seq<Scheduled>, budget: nat)
    requires Served(s, [], c.maxScheduledTokens, s', batch, budget) && Total(batch) + budget == c.maxScheduledTokens
    requires |s'.preempted| != |s.preempted|
    ensures GreedyStep(c, s, s', batch)
  {
    hide Total, Refused;
  }

  lemma AdmittingStep(
    c: Config, s: State, s1: State, batch1: seq<Scheduled>, budget1: nat, s': State, batch: seq<Scheduled>, budget: nat)
    requires Served(s, [], c.maxScheduledTokens, s1, batch1, budget1) && |s1.preempted| == |s.preempted|
    requires Admitted(s1, batch1, budget1, s', batch, budget) && batch1 <= batch
    requires |batch1| == |s1.running| || batch == batch1
    requires |s'.preempted| <= |s1.preempted| && Total(batch) + budget == c.maxScheduledTokens
    requires budget == 0 || |batch| >= c.maxSeqs || !HasHead(s') || Refused(c, s', budget)
    ensures GreedyStep(c, s, s', batch)
  {
    hide Total, Refused;
    forall i | 0 <= i < |batch| && i < |s.running|
      ensures batch[i].id == s.running[i].id && batch[i].offset == s.running[i].numComputed
    {
      assert i < |batch1| && batch[i] == batch1[i];
    }
  }

  lemma {:induction false} AdmitShrinks(c: Config, s: State, budget: nat, batch: seq<Scheduled>)
    requires Inv(c, s, batch)
    requires |batch| == |s.running| || budget == 0 || |batch| >= c.maxSeqs
    ensures var (s', budget', batch') := AdmitQueued(c, s, budget, batch);
            |s'.preempted| <= |s.preempted| && (|batch| == |s.running| || batch' == batch)
    decreases |s.preempted| + |s.waiting|
  {
    hide Inv, Feed, Order, Askable, Fits, Release, ReusePrefix;
    if HasHead(s) && budget > 0 && |batch| < c.maxSeqs {
      var i := |batch|;
      EnterKeepsInv(c, s, batch);
      var s1 := Enter(c, s);
      NextShare(c, s1, batch, budget);
      var n := ShareOf(s1.running[i], budget);
      NextAskable(c, s1, batch, n);
      if Fits(c, s1.pool, s1.running[i], n) {
        FeedKeepsInv(c, s1, batch, n);
        FedEntry(c, s1, batch, budget);
        var (s2, e) := Feed(c, s1, i, n);
        AdmitShrinks(c, s2, budget - n, batch + [e]);
      }
    }
  }

  lemma ScheduleIsGreedy(c: Config, s: State)
    requires Inv(c, s, [])
    ensures var (s', batch) := Schedule(c, s); GreedyStep(c, s, s', batch)
  {
    hide Base, EntryOk, Order, ServeRunning, AdmitQueued, GreedyStep, Served, Admitted, Total, Refused;
    ServeGreedy(c, s, c.maxScheduledTokens, []);
    ServeRunningBudget(c, s, c.maxScheduledTokens, []);
    var (s1, budget1, batch1) := ServeRunning(c, s, c.maxScheduledTokens, []);
    TotalOfNone();
    if |s1.preempted| == |s.preempted| {
      AdmitGreedy(c, s1, budget1, batch1);
      AdmitQueuedBudget(c, s1, budget1, batch1);
      AdmitShrinks(c, s1, budget1, batch1);
      var (s2, budget2, batch2) := AdmitQueued(c, s1, budget1, batch1);
      AdmittingStep(c, s, s1, batch1, budget1, s2, batch2, budget2);
    } else {
      PreemptedStep(c, s, s1, batch1, budget1);
    }
  }

  lemma TotalOfNone()
    ensures Total([]) == 0
  {
  }
}
