/** Delivering a step's tokens: the state between the model run and the next step. */
module UpdateStep {
  import opened Types
  import opened CachePool
  import opened PoolInvariant
  import opened PoolContent
  import opened Decoder
  import opened SchedulerModel
  import opened ScheduleStep
  import opened StepContent
  import opened Lifecycle

  ghost predicate Pending(rest: seq<Sampled>, id: Id) {
    exists k :: 0 <= k < |rest| && rest[k].id == id
  }

  /** While tokens are being delivered: exactly the requests still waiting for one have
      everything computed. */
  ghost predicate Delivering(c: Config, s: State, rest: seq<Sampled>) {
    && Base(c, s, Computed(s))
    && (forall i :: 0 <= i < |s.running| ==> TokensOk(c, s.running[i]))
    && (forall i :: 0 <= i < |s.running| ==>
          if Pending(rest, s.running[i].id) then s.running[i].numComputed
              == |s.running[i].tokens| else Ready(s.running[i]))
  }

  /** Every sampled token is for a running request, at most one for each. */
  ghost predicate Deliverable(s: State, rest: seq<Sampled>) {
    && (forall k :: 0 <= k < |rest| ==> HasId(s.running, rest[k].id))
    && (forall k, l :: 0 <= k < l < |rest| ==> rest[k].id != rest[l].id)
  }

  lemma FindsIt(rs: seq<Request>, id: Id)
    requires HasId(rs, id)
    ensures Find(rs, id) < |rs|
  {
  }

  // ---------------------------------------------------------------- removal

  lemma HasIdDelete(rs: seq<Request>, i: nat, id: Id)
    requires i < |rs| && HasId(rs, id) && rs[i].id != id
    ensures HasId(Delete(rs, i), id)
  {
    var j :| 0 <= j < |rs| && rs[j].id == id;
    if j < i { assert Delete(rs, i)[j].id == id; } else { assert Delete(rs, i)[j - 1].id == id; }
  }

  lemma NoDupDelete(rs: seq<Request>, i: nat)
    requires NoDup(rs) && i < |rs|
    ensures NoDup(Delete(rs, i))
  {
  }

  lemma RemoveRunningKeepsBase(c: Config, s: State, dones: seq<nat>, i: nat)
    requires Base(c, s, dones) && i < |s.running|
    ensures Releasable(c, s.pool, s.running[i])
    ensures Base(c, RemoveRunning(c, s, i), Delete(dones, i))
  {
    hide PoolOk, RunningOk, OthersKept, NoDup, Order, Releasable, Release;
    ReleaseRunning(c, s, dones, i);
    RemoveRunningOrder(c, s, i);
    NoDupDelete(Order(s), i);
    var s', r := RemoveRunning(c, s, i), s.running[i];
    forall j | 0 <= j < |s'.running|
      ensures RunningOk(c, s'.pool, s'.running[j], Delete(dones, i)[j])
    {
      var k := if j < i then j else j + 1;
      RunningDistinct(s, i, k);
      RunningKept(c, s.pool, s'.pool, r.id, s.running[k], dones[k]);
    }
    forall id | id in s'.pool.tables
      ensures HasId(s'.running, id)
    {
      HasIdDelete(s.running, i, id);
    }
  }

  lemma RemoveKeepsInv(c: Config, s: State, id: Id)
    requires Inv(c, s, [])
    ensures Removable(c, s, id) && Inv(c, Remove(c, s, id), [])
  {
    hide Inv, Releasable, Release;
    var i := Find(s.running, id);
    if i < |s.running| {
      RemoveRunningKeepsInv(c, s, i);
    } else {
      RemoveQueuedKeepsInv(c, s, id);
    }
  }

  lemma RemoveRunningKeepsInv(c: Config, s: State, i: nat)
    requires Inv(c, s, []) && i < |s.running|
    ensures Releasable(c, s.pool, s.running[i]) && Inv(c, RemoveRunning(c, s, i), [])
  {
    hide Base, Releasable, Release;
    RemoveRunningKeepsBase(c, s, Dones(s, []), i);
    assert Dones(RemoveRunning(c, s, i), []) == Delete(Dones(s, []), i);
  }

  lemma RemoveQueuedKeepsInv(c: Config, s: State, id: Id)
    requires Inv(c, s, []) && Find(s.running, id) == |s.running|
    ensures Removable(c, s, id) && Inv(c, Remove(c, s, id), [])
  {
    hide PoolOk, RunningOk, NoDup, Order, Releasable, Release, Find;
    RemoveOrder(c, s, id);
    if Rank(s, id) < |Order(s)| { NoDupDelete(Order(s), Rank(s, id)); }
    assert Dones(Remove(c, s, id), []) == Dones(s, []);
  }

  // ---------------------------------------------------------------- arrival

  /** The frontend's promise about a request. */
  ghost predicate ArrivalOk(c: Config, a: Arrival) {
    0 < |a.tokens| < c.maxModelLen
  }

  lemma AddKeepsInv(c: Config, s: State, a: Arrival)
    requires Inv(c, s, []) && ArrivalOk(c, a) && Rank(s, a.id) == |Order(s)|
    ensures Inv(c, AddRequest(s, a), [])
  {
    hide PoolOk, RunningOk, Order;
    AddOrder(s, a);
    assert Dones(AddRequest(s, a), []) == Dones(s, []);
  }

  // ---------------------------------------------------------------- delivery

  lemma GrowKeepsBase(c: Config, s: State, dones: seq<nat>, i: nat, t: Token)
    requires Base(c, s, dones) && i < |s.running|
    ensures Base(c, s.(running := s.running[i := Grow(s.running[i], t)]), dones)
  {
    hide PoolOk, TableOk, Order;
    var r := s.running[i];
    var s' := s.(running := s.running[i := Grow(r, t)]);
    GrowOrder(s, i, t);
    assert RunningOk(c, s.pool, r, dones[i]);
    TableOkLater(c, s.pool.store, Table(s.pool, r.id), r.tokens, dones[i], Grow(r, t).tokens, dones[i]);
    forall id | id in s'.pool.tables
      ensures HasId(s'.running, id)
    {
      assert HasId(s.running, id);
      var j :| 0 <= j < |s.running| && s.running[j].id == id;
      assert s'.running[j].id == id;
    }
  }

  lemma DeliverKeeps(c: Config, s: State, rest: seq<Sampled>, i: nat)
    requires Delivering(c, s, rest) && Deliverable(s, rest) && rest != []
    requires i < |s.running| && s.running[i].id == rest[0].id
    ensures Releasable(c, s.pool, Grow(s.running[i], rest[0].token))
    ensures var s' := Deliver(c, s, i, rest[0]).0; Delivering(c, s', rest[1..]) && Deliverable(s', rest[1..])
  {
    hide Base, Releasable, Release, NoDup, Order;
    var x := rest[0];
    var r := Grow(s.running[i], x.token);
    var s1 := s.(running := s.running[i := r]);
    GrowKeepsBase(c, s, Computed(s), i, x.token);
    RemoveRunningKeepsBase(c, s1, Computed(s), i);
    assert Pending(rest, s.running[i].id);
    var s' := Deliver(c, s, i, x).0;
    RestOfRunning(c, s, s', rest, i);
    if FinishReason(c, r, x.eos) == GoOn {
      assert Computed(s') == Computed(s);
    } else {
      assert Computed(s') == Delete(Computed(s), i);
    }
  }

  lemma PendingRest(rest: seq<Sampled>, id: Id)
    requires rest != [] && rest[0].id != id
    ensures Pending(rest, id) <==> Pending(rest[1..], id)
  {
    if Pending(rest, id) {
      var k :| 0 <= k < |rest| && rest[k].id == id;
      assert rest[1..][k - 1].id == id;
    }
  }

  lemma RestOfRunning(c: Config, s: State, s': State, rest: seq<Sampled>, i: nat)
    requires Delivering(c, s, rest) && Deliverable(s, rest) && rest != []
    requires i < |s.running| && s.running[i].id == rest[0].id
    requires Releasable(c, s.pool, Grow(s.running[i], rest[0].token)) && s' == Deliver(c, s, i, rest[0]).0
    ensures Deliverable(s', rest[1..])
    ensures forall j :: 0 <= j < |s'.running| ==>
              && TokensOk(c, s'.running[j])
              && if Pending(rest[1..], s'.running[j].id) then s'.running[j].numComputed == |s'.running[j].tokens|
                 else Ready(s'.running[j])
  {
    hide PoolOk, RunningOk, Releasable, Release, Order;
    var x := rest[0];
    assert Pending(rest, s.running[i].id);
    assert !Pending(rest[1..], x.id);
    forall j | 0 <= j < |s.running| && j != i
      ensures Pending(rest, s.running[j].id) <==> Pending(rest[1..], s.running[j].id)
    {
      RunningDistinct(s, i, j);
      PendingRest(rest, s.running[j].id);
    }
    var s1 := s.(running := s.running[i := Grow(s.running[i], x.token)]);
    forall k | 0 <= k < |rest[1..]|
      ensures HasId(s'.running, rest[1..][k].id)
    {
      var j :| 0 <= j < |s.running| && s.running[j].id == rest[k + 1].id;
      assert s1.running[j].id == rest[k + 1].id;
      if s'.running != s1.running { HasIdDelete(s1.running, i, rest[k + 1].id); }
    }
  }

  function Update(c: Config, s: State, rest: seq<Sampled>): (r: (State, seq<Output>))
    requires Delivering(c, s, rest) && Deliverable(s, rest)
    ensures Delivering(c, r.0, []) && |r.1| == |rest|
    decreases |rest|
  {
    hide Delivering, Releasable;
    if rest == [] then (s, [])
    else
      var i := Find(s.running, rest[0].id);
      FindsIt(s.running, rest[0].id);
      DeliverKeeps(c, s, rest, i);
      var (s', out) := Deliver(c, s, i, rest[0]);
      var (s'', outs) := Update(c, s', rest[1..]);
      (s'', [out] + outs)
  }

  /** What is sent for the token x of r: EOS stops it unless it is to be ignored, its own
      limit or the model's ends it, and otherwise it goes on. */
  ghost predicate Announced(c: Config, r: Request, x: Sampled, out: Output) {
    && out.id == x.id && out.token == x.token
    && (out.reason == Stop <==> !r.ignoreEos && x.eos)
    && (out.reason == Length <==>
          && out.reason != Stop
          && (|r.tokens| + 1 - r.numPrompt >= r.maxOutput || |r.tokens| + 1 >= c.maxModelLen))
  }

  ghost predicate AllAnnounced(c: Config, rs: seq<Request>, xs: seq<Sampled>, outs: seq<Output>) {
    && |outs| == |xs|
    && forall k, i :: 0 <= k < |xs| && 0 <= i < |rs| && rs[i].id == xs[k].id ==> Announced(c, rs[i], xs[k], outs[k])
  }

  /** A step announces each sampled token of each request, in order, with the right reason. */
  lemma {:induction false} UpdateAnnounces(c: Config, s: State, rest: seq<Sampled>)
    requires Delivering(c, s, rest) && Deliverable(s, rest)
    ensures AllAnnounced(c, s.running, rest, Update(c, s, rest).1)
    decreases |rest|
  {
    hide Delivering, Releasable, Deliver, Announced;
    if rest != [] {
      var i := Find(s.running, rest[0].id);
      FindsIt(s.running, rest[0].id);
      DeliverKeeps(c, s, rest, i);
      var (s', out) := Deliver(c, s, i, rest[0]);
      UpdateAnnounces(c, s', rest[1..]);
      var outs, outs' := Update(c, s, rest).1, Update(c, s', rest[1..]).1;
      forall k, j | 0 <= k < |rest| && 0 <= j < |s.running| && s.running[j].id == rest[k].id
        ensures Announced(c, s.running[j], rest[k], outs[k])
      {
        if k == 0 {
          AnnouncedFirst(c, s, rest, j, i);
        } else {
          assert rest[1..][k - 1] == rest[k] && outs[k] == outs'[k - 1] && rest[k].id != rest[0].id;
          var l := StaysRunning(c, s, i, rest[0], j);
        }
      }
    }
  }

  /** Delivery to one request leaves the others as they are. */
  lemma StaysRunning(c: Config, s: State, i: nat, x: Sampled, j: nat) returns (l: nat)
    requires i < |s.running| && j < |s.running| && i != j
    requires Releasable(c, s.pool, Grow(s.running[i], x.token))
    ensures var s' := Deliver(c, s, i, x).0; l < |s'.running| && s'.running[l] == s.running[j]
  {
    hide Releasable, Release, FinishReason;
    var (s', out) := Deliver(c, s, i, x);
    l := if out.reason == GoOn || j < i then j else j - 1;
  }

  lemma AnnouncedFirst(c: Config, s: State, rest: seq<Sampled>, j: nat, i: nat)
    requires Delivering(c, s, rest) && rest != [] && i < |s.running| && j < |s.running|
    requires s.running[i].id == s.running[j].id == rest[0].id
    requires Releasable(c, s.pool, Grow(s.running[i], rest[0].token))
    ensures Announced(c, s.running[j], rest[0], Deliver(c, s, i, rest[0]).1)
  {
    hide PoolOk, RunningOk, Releasable, Release, Order;
    if i != j { RunningDistinct(s, i, j); }
  }

  lemma DeliveredInv(c: Config, s: State)
    requires Delivering(c, s, [])
    ensures Inv(c, s, [])
  {
    hide Base;
    assert Dones(s, []) == Computed(s);
  }

  // ---------------------------------------------------------------- contents

  lemma GrownTable(c: Config, kv: seq<KV>, t: seq<nat>, tokens: seq<Token>, n: nat, tokens': seq<Token>)
    requires TableHolds(c, kv, t, tokens, n) && tokens <= tokens'
    ensures TableHolds(c, kv, t, tokens', n)
  {
    hide BlockHolds;
    forall i | 0 <= i < |t|
      ensures BlockHolds(c, kv, t[i], tokens', i, n)
    {
      HoldsPrefix(c, kv, t[i], tokens, tokens', i, n);
    }
  }

  lemma RemoveRunningContent(c: Config, s: State, kv: seq<KV>, U: iset<seq<Token>>, i: nat)
    requires Universe(c, U) && Base(c, s, Computed(s)) && Content(c, s, kv, U, Computed(s)) && i < |s.running|
    ensures Releasable(c, s.pool, s.running[i])
    ensures var s' := RemoveRunning(c, s, i); Content(c, s', kv, U, Computed(s'))
  {
    hide Base, Universe, CacheOk, TableHolds, Order, OthersKept, Releasable, Release;
    ReleaseKeepsCache(c, s, kv, U, Computed(s), i);
    RemovalFrame(c, s, Computed(s), i);
    RemoveRunningOrder(c, s, i);
    var s' := RemoveRunning(c, s, i);
    forall j | 0 <= j < |s'.running|
      ensures TableHolds(c, kv, Table(s'.pool, s'.running[j].id), s'.running[j].tokens, Computed(s')[j])
    {
      var k := if j < i then j else j + 1;
      assert s'.running[j] == s.running[k] && k != i;
      OthersTable(s.pool, s'.pool, s.running[i].id, s.running[k].id);
      assert TableHolds(c, kv, Table(s.pool, s.running[k].id), s.running[k].tokens, Computed(s)[k]);
    }
  }

  lemma RemovalFrame(c: Config, s: State, dones: seq<nat>, i: nat)
    requires Base(c, s, dones) && i < |s.running|
    ensures Releasable(c, s.pool, s.running[i])
    ensures OthersKept(s.pool, Release(c, s.pool, s.running[i]), s.running[i].id)
    ensures forall k :: 0 <= k < |s.running| && k != i ==> s.running[k].id != s.running[i].id
  {
    hide PoolOk, RunningOk, Releasable, Release, OthersKept, Order;
    ReleaseRunning(c, s, dones, i);
    forall k | 0 <= k < |s.running| && k != i
      ensures s.running[k].id != s.running[i].id
    {
      RunningDistinct(s, i, k);
    }
  }

  lemma DeliverKeepsContent(
    c: Config, s: State, kv: seq<KV>, U: iset<seq<Token>>, rest: seq<Sampled>, i: nat)
    requires Universe(c, U) && Delivering(c, s, rest) && Deliverable(s, rest) && rest != []
    requires i < |s.running| && s.running[i].id == rest[0].id
    requires Content(c, s, kv, U, Computed(s)) && Grow(s.running[i], rest[0].token).tokens in U
    ensures Releasable(c, s.pool, Grow(s.running[i], rest[0].token))
    ensures var s' := Deliver(c, s, i, rest[0]).0; Content(c, s', kv, U, Computed(s'))
  {
    hide Base, Universe, CacheOk, TableHolds, Order, Releasable, Release;
    var x := rest[0];
    var s1 := s.(running := s.running[i := Grow(s.running[i], x.token)]);
    GrowKeepsBase(c, s, Computed(s), i, x.token);
    GrowOrder(s, i, x.token);
    assert Computed(s1) == Computed(s);
    forall j | 0 <= j < |s1.running|
      ensures TableHolds(c, kv, Table(s1.pool, s1.running[j].id), s1.running[j].tokens, Computed(s1)[j])
    {
      assert TableHolds(c, kv, Table(s.pool, s.running[j].id), s.running[j].tokens, Computed(s)[j]);
      if j == i {
        GrownTable(c, kv, Table(s.pool, s.running[i].id), s.running[i].tokens, Computed(s)[i], s1.running[i].tokens);
      }
    }
    assert TokensIn(Order(s1), U) by {
      RunningOrder(s, i);
    }
    RemoveRunningContent(c, s1, kv, U, i);
  }

  lemma RemoveKeepsContent(c: Config, s: State, kv: seq<KV>, U: iset<seq<Token>>, id: Id)
    requires Universe(c, U) && Inv(c, s, []) && Content(c, s, kv, U, Computed(s))
    ensures Removable(c, s, id)
    ensures var s' := Remove(c, s, id); Content(c, s', kv, U, Computed(s'))
  {
    hide Base, Universe, CacheOk, TableHolds, Order, Releasable, Release;
    assert Dones(s, []) == Computed(s);
    var i := Find(s.running, id);
    if i < |s.running| {
      RemoveRunningContent(c, s, kv, U, i);
    } else {
      QueueRemovalOrder(c, s, id);
      var order' := Order(Remove(c, s, id));
      forall j | 0 <= j < |order'|
        ensures order'[j].tokens in U
      {
        assert order'[j] in Order(s);
      }
    }
  }

  lemma QueueRemovalOrder(c: Config, s: State, id: Id)
    requires Inv(c, s, []) && Find(s.running, id) == |s.running|
    ensures forall r :: r in Order(Remove(c, s, id)) ==> r in Order(s)
    ensures Remove(c, s, id).running == s.running && Remove(c, s, id).pool == s.pool
    ensures Computed(Remove(c, s, id)) == Computed(s)
  {
    hide PoolOk, RunningOk, Order, NoDup, Release, Releasable;
    RemoveOrder(c, s, id);
  }

  lemma AddKeepsContent(c: Config, s: State, kv: seq<KV>, U: iset<seq<Token>>, a: Arrival)
    requires Content(c, s, kv, U, Computed(s)) && a.tokens in U
    ensures var s' := AddRequest(s, a); Content(c, s', kv, U, Computed(s'))
  {
    hide CacheOk, TableHolds, Order;
    AddOrder(s, a);
    assert Computed(AddRequest(s, a)) == Computed(s);
  }
}
