/** How requests come and go: arrival, delivery of sampled tokens, completion and abort. */
module Lifecycle {
  import opened Types
  import opened CachePool
  import opened Decoder
  import opened SchedulerModel

  // ---------------------------------------------------------------- operations

  function Find(rs: seq<Request>, id: Id): (i: nat)
    ensures i <= |rs| && (i < |rs| ==> rs[i].id == id)
    ensures forall j :: 0 <= j < i ==> rs[j].id != id
  {
    if rs == [] || rs[0].id == id then 0 else 1 + Find(rs[1..], id)
  }

  function Delete<T>(xs: seq<T>, i: nat): (r: seq<T>)
    requires i < |xs|
    ensures |r| == |xs| - 1
  {
    xs[..i] + xs[i + 1..]
  }

  /** A request as the frontend sends it. */
  datatype Arrival = Arrival(id: Id, maxOutput: int, ignoreEos: bool, tokens: seq<Token>, params: SampleParams)

  function Accept(a: Arrival): Request {
    Request(a.id, Waiting, |a.tokens|, |a.tokens|, 0, a.maxOutput, a.ignoreEos, a.tokens, a.params)
  }

  function AddRequest(s: State, a: Arrival): State {
    s.(waiting := s.waiting + [Accept(a)])
  }

  function RemoveRunning(c: Config, s: State, i: nat): State
    requires i < |s.running| && Releasable(c, s.pool, s.running[i])
  {
    s.(running := Delete(s.running, i), pool := Release(c, s.pool, s.running[i]))
  }

  ghost predicate Removable(c: Config, s: State, id: Id) {
    var i := Find(s.running, id);
    i < |s.running| ==> Releasable(c, s.pool, s.running[i])
  }

  /** Takes a request out of whichever queue it is in; unknown ids are ignored. */
  function Remove(c: Config, s: State, id: Id): State
    requires Removable(c, s, id)
  {
    var i, j, k := Find(s.running, id), Find(s.preempted, id), Find(s.waiting, id);
    if i < |s.running| then RemoveRunning(c, s, i)
    else if j < |s.preempted| then s.(preempted := Delete(s.preempted, j))
    else if k < |s.waiting| then s.(waiting := Delete(s.waiting, k))
    else s
  }

  /** Appends a sampled token to running[i] and retires the request if that was its last. */
  function Deliver(c: Config, s: State, i: nat, x: Sampled): (State, Output)
    requires i < |s.running| && Releasable(c, s.pool, Grow(s.running[i], x.token))
  {
    var r := Grow(s.running[i], x.token);
    var reason := FinishReason(c, r, x.eos);
    var s1 := s.(running := s.running[i := r]);
    (if reason == GoOn then s1 else RemoveRunning(c, s1, i), Output(x.id, x.token, reason))
  }

  // ---------------------------------------------------------------- what they do to the order

  lemma RunningOrder(s: State, i: nat)
    requires i < |s.running|
    ensures i < |Order(s)| && Order(s)[i] == Core(s.running[i])
  {
  }

  lemma DeleteCores(rs: seq<Request>, i: nat)
    requires i < |rs|
    ensures Cores(Delete(rs, i)) == Delete(Cores(rs), i)
  {
  }

  lemma DeleteLeft<T>(a: seq<T>, b: seq<T>, i: nat)
    requires i < |a|
    ensures Delete(a + b, i) == Delete(a, i) + b
  {
  }

  lemma DeleteRight<T>(a: seq<T>, b: seq<T>, i: nat)
    requires i < |b|
    ensures Delete(a + b, |a| + i) == a + Delete(b, i)
  {
    assert (a + b)[..|a| + i] == a + b[..i];
    assert (a + b)[|a| + i + 1..] == b[i + 1..];
  }

  lemma RemoveRunningOrder(c: Config, s: State, i: nat)
    requires i < |s.running| && Releasable(c, s.pool, s.running[i])
    ensures i < |Order(s)| && Order(RemoveRunning(c, s, i)) == Delete(Order(s), i)
  {
    hide Cores, Release, Releasable, Delete;
    DeleteCores(s.running, i);
    DeleteLeft(Cores(s.running), Cores(s.preempted), i);
    DeleteLeft(Cores(s.running) + Cores(s.preempted), Cores(s.waiting), i);
  }

  /** Where a live request stands in arrival order. */
  function Rank(s: State, id: Id): nat {
    Find(Order(s), id)
  }

  lemma FindUnique(rs: seq<Request>, id: Id, i: nat)
    requires NoDup(rs) && i < |rs| && rs[i].id == id
    ensures Find(rs, id) == i
  {
  }

  /** Removal deletes exactly the request with that id from the order. */
  lemma RemoveOrder(c: Config, s: State, id: Id)
    requires NoDup(Order(s)) && Removable(c, s, id)
    ensures Order(Remove(c, s, id)) ==
              if Rank(s, id) < |Order(s)| then Delete(Order(s), Rank(s, id)) else Order(s)
  {
    hide Cores, Release, Releasable, Delete, Find, RemoveRunning;
    var i, j, k := Find(s.running, id), Find(s.preempted, id), Find(s.waiting, id);
    var a, b, d := Cores(s.running), Cores(s.preempted), Cores(s.waiting);
    if i < |s.running| {
      RemoveRunningOrder(c, s, i);
      RunningOrder(s, i);
      FindUnique(Order(s), id, i);
    } else if j < |s.preempted| {
      assert Order(s)[|a| + j] == b[j];
      FindUnique(Order(s), id, |a| + j);
      DeleteCores(s.preempted, j);
      DeleteRight(a, b, j);
      DeleteLeft(a + b, d, |a| + j);
    } else if k < |s.waiting| {
      assert Order(s)[|a + b| + k] == d[k];
      FindUnique(Order(s), id, |a + b| + k);
      DeleteCores(s.waiting, k);
      DeleteRight(a + b, d, k);
    } else {
      forall n | 0 <= n < |Order(s)|
        ensures Order(s)[n].id != id
      {
        if n < |a| { assert Order(s)[n] == a[n]; }
        else if n < |a + b| { assert Order(s)[n] == b[n - |a|]; }
        else { assert Order(s)[n] == d[n - |a + b|]; }
      }
    }
  }

  lemma AddOrder(s: State, a: Arrival)
    ensures Order(AddRequest(s, a)) == Order(s) + [Core(Accept(a))]
  {
    var s' := AddRequest(s, a);
    assert Cores(s'.waiting) == Cores(s.waiting) + [Core(Accept(a))];
  }

  lemma GrowOrder(s: State, i: nat, t: Token)
    requires i < |s.running|
    ensures i < |Order(s)|
    ensures Order(s.(running := s.running[i := Grow(s.running[i], t)])) == Order(s)[i := Grow(Order(s)[i], t)]
  {
    var s' := s.(running := s.running[i := Grow(s.running[i], t)]);
    assert Cores(s'.running) == Cores(s.running)[i := Grow(Cores(s.running)[i], t)];
  }
}
