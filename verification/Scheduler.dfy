/** The scheduler as it is implemented: three lists of request nodes that are spliced into
    one another, an index from ids to nodes, and the cache manager. */
module Scheduler {
  import opened Types
  import opened Arith
  import opened CachePool
  import opened SchedulerModel
  import opened ScheduleStep
  import opened Lifecycle
  import opened UpdateStep
  import opened Decoder
  import opened SchedulerRounds
  import K = KVCacheManager

  /** A list node; it keeps its identity when it is spliced into another list. */
  class Node {
    var req: Request

    constructor (r: Request)
      ensures req == r
    {
      req := r;
    }
  }

  ghost function Values(ns: seq<Node>): (vs: seq<Request>)
    reads ns
    ensures |vs| == |ns| && forall i :: 0 <= i < |ns| ==> vs[i] == ns[i].req
  {
    seq(|ns|, i requires 0 <= i < |ns| reads ns => ns[i].req)
  }

  /** The index maps exactly the listed nodes' ids to those nodes. */
  ghost predicate Indexes(ns: seq<Node>, index: map<Id, Node>)
    reads ns`req
  {
    && (forall i :: 0 <= i < |ns| ==> ns[i].req.id in index && index[ns[i].req.id] == ns[i])
    && (forall id <- index :: index[id] in ns && index[id].req.id == id)
  }

  ghost predicate Distinct(ns: seq<Node>) {
    forall i, j :: 0 <= i < j < |ns| ==> ns[i] != ns[j]
  }

  lemma IndexesErased(ns: seq<Node>, index: map<Id, Node>, k: nat)
    requires Indexes(ns, index) && Distinct(ns) && k < |ns|
    ensures Indexes(Delete(ns, k), index - {ns[k].req.id})
    ensures forall n :: n in Delete(ns, k) ==> n in ns
  {
    var ns', id := Delete(ns, k), ns[k].req.id;
    forall i | 0 <= i < |ns'|
      ensures ns'[i] in ns && ns'[i].req.id in index && ns'[i].req.id != id && index[ns'[i].req.id] == ns'[i]
    {
      var j := if i < k then i else i + 1;
      assert ns'[i] == ns[j] && ns[j] != ns[k];
    }
    forall x | x in index && x != id
      ensures index[x] in ns'
    {
      var j :| 0 <= j < |ns| && ns[j] == index[x];
      assert ns'[if j < k then j else j - 1] == index[x];
    }
  }

  class Scheduler {
    const config: Config
    const manager: K.KVCacheManager

    var running: seq<Node>
    var preempted: seq<Node>
    var waiting: seq<Node>
    var idToRequest: map<Id, Node>

    /** All nodes, oldest request first.  Scheduling splices them from list to list without
        ever changing this sequence. */
    ghost function Nodes(): seq<Node>
      reads `running, `preempted, `waiting
    {
      running + preempted + waiting
    }

    lemma Listing()
      ensures forall i :: 0 <= i < |running| ==> running[i] in Nodes()
      ensures forall i :: 0 <= i < |preempted| ==> preempted[i] in Nodes()
      ensures forall i :: 0 <= i < |waiting| ==> waiting[i] in Nodes()
    {
      assert forall i :: 0 <= i < |running| ==> Nodes()[i] == running[i];
      assert forall i :: 0 <= i < |preempted| ==> Nodes()[|running| + i] == preempted[i];
      assert forall i :: 0 <= i < |waiting| ==> Nodes()[|running| + |preempted| + i] == waiting[i];
    }

    ghost predicate ListsOk()
      reads `running, `preempted, `waiting, `idToRequest, running`req, preempted`req, waiting`req
    {
      Indexes(Nodes(), idToRequest)
    }

    ghost predicate Valid()
      reads this, running, preempted, waiting, manager, manager.blocks
    {
      manager.Valid() && manager.config == config && ListsOk()
    }

    ghost function View(): State
      reads this, running, preempted, waiting, manager, manager.blocks
    {
      State(Values(running), Values(preempted), Values(waiting), manager.View())
    }

    constructor (c: Config)
      ensures Valid() && config == c && View() == Initial(c) && fresh(manager) && fresh(manager.blocks)
      ensures running == preempted == waiting == []
    {
      hide K.KVCacheManager.Valid, K.KVCacheManager.View;
      config := c;
      manager := new K.KVCacheManager(c);
      running, preempted, waiting, idToRequest := [], [], [], map[];
    }

    method AddRequest(a: Arrival)
      requires Valid() && a.id !in idToRequest
      modifies this`waiting, this`idToRequest
      ensures Valid() && a.id in idToRequest && View() == Lifecycle.AddRequest(old(View()), a)
      ensures Nodes() == old(Nodes()) + [idToRequest[a.id]] && fresh(idToRequest[a.id])
      ensures idToRequest[a.id].req ==
                Request(a.id, Status.Waiting, |a.tokens|, |a.tokens|, 0, a.maxOutput, a.ignoreEos, a.tokens, a.params)
      ensures idToRequest.Keys == old(idToRequest).Keys + {a.id}
    {
      hide K.KVCacheManager.Valid, K.KVCacheManager.View, ListsOk, Values;
      var node := new Node(Accept(a));
      Enqueue(node);
    }

    method Enqueue(node: Node)
      requires ListsOk() && node.req.id !in idToRequest
      modifies `waiting, `idToRequest
      ensures ListsOk() && idToRequest == old(idToRequest)[node.req.id := node] && Nodes() == old(Nodes()) + [node]
      ensures Values(waiting) == old(Values(waiting)) + [node.req]
    {
      ghost var before := Nodes();
      waiting := waiting + [node];
      idToRequest := idToRequest[node.req.id := node];
      assert Nodes() == before + [node];
    }

    // -------------------------------------------------------------- nodes

    ghost predicate Apart()
      reads `running, `preempted, `waiting
    {
      && (forall i, j :: 0 <= i < j < |running| ==> running[i] != running[j])
      && (forall i, j :: 0 <= i < j < |preempted| ==> preempted[i] != preempted[j])
      && (forall i, j :: 0 <= i < j < |waiting| ==> waiting[i] != waiting[j])
      && (forall i, j :: 0 <= i < |running| && 0 <= j < |preempted| ==> running[i] != preempted[j])
      && (forall i, j :: 0 <= i < |running| && 0 <= j < |waiting| ==> running[i] != waiting[j])
      && (forall i, j :: 0 <= i < |preempted| && 0 <= j < |waiting| ==> preempted[i] != waiting[j])
    }

    /** Different ids mean different nodes: no node is listed twice. */
    lemma NodesApart()
      requires NoDup(Order(View()))
      ensures Apart() && Distinct(Nodes())
    {
      hide K.KVCacheManager.View, NoDup;
      var order, nodes := Order(View()), running + preempted + waiting;
      assert forall i :: 0 <= i < |nodes| ==> order[i].id == nodes[i].req.id;
      forall i, j | 0 <= i < j < |nodes|
        ensures nodes[i] != nodes[j]
      {
        DifferentIds(order, i, j);
      }
      PartsApart(running, preempted, waiting);
    }

    /** Writes through a node of the running list. */
    method SetRunning(i: nat, r: Request)
      requires ListsOk() && Apart() && i < |running| && r.id == running[i].req.id
      modifies running[i]
      ensures ListsOk() && Values(running) == old(Values(running))[i := r]
      ensures Values(preempted) == old(Values(preempted)) && Values(waiting) == old(Values(waiting))
    {
      running[i].req := r;
    }

    method SpliceLast()
      requires ListsOk() && running != []
      modifies `running, `preempted
      ensures ListsOk() && |running| == |old(running)| - 1
      ensures running + preempted == old(running + preempted)
      ensures Values(running) == old(Values(running))[..|old(running)| - 1]
      ensures Values(preempted) == [old(Values(running))[|old(running)| - 1]] + old(Values(preempted))
    {
      var n := |running| - 1;
      ghost var before := Nodes();
      running, preempted := running[..n], [running[n]] + preempted;
      assert Nodes() == before;
    }

    /** Moves the last running request to the front of the preempted list. */
    method DemoteLast()
      requires ListsOk() && Apart() && running != []
      modifies `running, `preempted, running[|running| - 1]
      ensures ListsOk() && |running| == |old(running)| - 1
      ensures running + preempted == old(running + preempted)
      ensures Values(running) == old(Values(running))[..|old(running)| - 1]
      ensures Values(preempted) ==
                [old(Values(running))[|old(running)| - 1].(numComputed := 0, status := Status.Preempted)]
                + old(Values(preempted))
      ensures Values(waiting) == old(Values(waiting))
    {
      hide Values;
      var n := |running| - 1;
      var victim := running[n];
      SetRunning(n, victim.req.(numComputed := 0, status := Status.Preempted));
      SpliceLast();
    }

    method PreemptLast(ghost batch: seq<Scheduled>)
      requires Valid() && Inv(config, View(), batch) && |batch| < |running|
      modifies this, manager, manager.blocks, running[|running| - 1]
      ensures Valid() && View() == AfterPreempt(config, old(View()))
      ensures |running| == |old(running)| - 1 && Nodes() == old(Nodes()) && idToRequest == old(idToRequest)
    {
      hide K.KVCacheManager.Valid, K.KVCacheManager.View, ListsOk, Apart, Inv, Order, Releasable, Release;
      PreemptKeepsInv(config, View(), batch);
      InvNoDup(config, View(), batch);
      NodesApart();
      manager.ReleaseBlocks(running[|running| - 1].req);
      DemoteLast();
    }

    lemma RunningIs()
      ensures |View().running| == |running| && |View().preempted| == |preempted| && |View().waiting| == |waiting|
      ensures forall i :: 0 <= i < |running| ==> running[i].req == View().running[i] && running[i] in Nodes()
    {
      hide K.KVCacheManager.View, Nodes;
      Listing();
    }

    method AllocateRunning(i: nat, n: nat) returns (ok: bool)
      requires Valid() && i < |running| && |View().running| == |running| && n > 0
      requires K.CanAllocate(config, View().pool, View().running[i], n)
      modifies manager, manager.blocks
      ensures Valid() && running == old(running) && Nodes() == old(Nodes()) && idToRequest == old(idToRequest)
      ensures (View(), ok) == RunningAllocated(config, old(View()), i, n)
    {
      hide K.KVCacheManager.Valid, K.KVCacheManager.View, ListsOk, K.Allocation, K.CanAllocate;
      ok := manager.AllocateSlots(running[i].req, n);
    }

    /** The inner loop of pass 1: allocate, preempting from the young end until it works. */
    method SecureSlots(ghost batch: seq<Scheduled>, i: nat, n: nat) returns (ok: bool)
      requires Valid() && i == |batch| && SecureReady(config, View(), batch, n)
      modifies this, manager, manager.blocks, Nodes()
      ensures Valid() && |running| <= |old(running)| && Nodes() == old(Nodes()) && idToRequest == old(idToRequest)
      ensures Secured(config, old(View()), View(), batch, n, ok)
    {
      hide View, Valid, Nodes, AfterSecure, AfterPreempt, Inv, Secured, SecureReady, RunningAllocated, K.CanAllocate;
      while true
        invariant Valid() && SecureReady(config, View(), batch, n)
        invariant Nodes() == old(Nodes()) && |running| <= |old(running)| && idToRequest == old(idToRequest)
        invariant AfterSecure(config, View(), batch, n) == AfterSecure(config, old(View()), batch, n)
        decreases |running|
      {
        ghost var s := View();
        SecureRound(config, s, batch, n);
        RunningIs();
        ok := AllocateRunning(i, n);
        if ok {
          SecuredSame(config, s, old(View()), View(), batch, n, true);
          return;
        }
        var cur, last := running[i].req.id, running[|running| - 1].req.id;
        PreemptLast(batch);
        if last == cur {
          SecuredSame(config, s, old(View()), View(), batch, n, false);
          return false;
        }
      }
    }

    /** Hands running[i] its share of the step. */
    method FeedNext(i: nat, n: nat) returns (e: Scheduled)
      requires Valid() && Apart() && i < |running| && |View().running| == |running| && Suppliable(View(), i, n)
      modifies Nodes()
      ensures Valid() && running == old(running) && Nodes() == old(Nodes()) && idToRequest == old(idToRequest)
      ensures (View(), e) == Supplied(old(View()), i, n)
    {
      hide K.KVCacheManager.Valid, K.KVCacheManager.Store, ListsOk, Apart, Nodes;
      RunningIs();
      var r := running[i].req;
      var numAfter := r.numComputed + n;
      var t := manager.GetAllocatedBlocks(r.id);
      e := Scheduled(r.id, r.numComputed < r.numPrefill, numAfter >= r.numPrefill, r.numComputed,
                     r.tokens[r.numComputed..numAfter], t, r.params);
      SetRunning(i, r.(numComputed := numAfter));
    }

    /** Pass 1: the running requests, oldest first. */
    method ServeRunning(maxTokens: nat) returns (budget: nat, batch: seq<Scheduled>)
      requires Valid() && Inv(config, View(), [])
      modifies this, manager, manager.blocks, Nodes()
      ensures Valid() && Inv(config, View(), batch) && Nodes() == old(Nodes()) && idToRequest == old(idToRequest)
      ensures (View(), budget, batch) == Served(config, old(View()), maxTokens, [])
    {
      hide View, Valid, Apart, Nodes, Served, Inv, Order, NoDup, AfterSecure, Secured, SecureReady, Suppliable,
           Supplied;
      budget, batch := maxTokens, [];
      var cur := 0;
      InvBatch(config, View(), batch);
      RunningIs();
      while cur < |running| && budget > 0 && |batch| < config.maxSeqs
        invariant Valid() && Inv(config, View(), batch) && cur == |batch| <= |running| == |View().running|
        invariant Nodes() == old(Nodes()) && idToRequest == old(idToRequest)
        invariant Served(config, View(), budget, batch) == Served(config, old(View()), maxTokens, [])
        decreases |running| - cur
      {
        ghost var s := View();
        ServeRound(config, s, budget, batch);
        RunningIs();
        var n := Min(|running[cur].req.tokens| - running[cur].req.numComputed, budget);
        var ok := SecureSlots(batch, cur, n);
        ServeSecured(config, s, View(), budget, batch, n, ok);
        if !ok {
          return;
        }
        NodesApart();
        RunningIs();
        var e := FeedNext(cur, n);
        budget, batch, cur := budget - n, batch + [e], cur + 1;
        InvBatch(config, View(), batch);
        RunningIs();
      }
      ServeEnd(config, View(), budget, batch);
    }

    // -------------------------------------------------------------- admission

    function HeadNode(): Node
      requires preempted != [] || waiting != []
      reads `preempted, `waiting
    {
      if preempted != [] then preempted[0] else waiting[0]
    }

    lemma HeadIs()
      requires HasHead(View())
      ensures (preempted != [] || waiting != []) && HeadNode().req == Head(View()) && HeadNode() in Nodes()
    {
      hide K.KVCacheManager.View, Nodes;
      Listing();
    }

    method SetHead(r: Request)
      requires ListsOk() && Apart() && HasHead(View()) && r.id == Head(View()).id
      modifies if preempted != [] then {preempted[0]} else {waiting[0]}
      ensures ListsOk() && View() == WithHead(old(View()), r)
    {
      hide K.KVCacheManager.View;
      HeadNode().req := r;
    }

    method SplicePreempted()
      requires ListsOk() && preempted != []
      modifies `running, `preempted
      ensures ListsOk() && Nodes() == old(Nodes()) && Values(running) == old(Values(running) + [Values(preempted)[0]])
      ensures Values(preempted) == old(Values(preempted))[1..]
    {
      ghost var before := Nodes();
      running, preempted := running + [preempted[0]], preempted[1..];
      assert Nodes() == before;
    }

    method SpliceWaiting()
      requires ListsOk() && preempted == [] && waiting != []
      modifies `running, `waiting
      ensures ListsOk() && Nodes() == old(Nodes()) && Values(running) == old(Values(running) + [Values(waiting)[0]])
      ensures Values(waiting) == old(Values(waiting))[1..]
    {
      ghost var before := Nodes();
      running, waiting := running + [waiting[0]], waiting[1..];
      assert Nodes() == before;
    }

    /** Splices the head of the first non-empty queue to the end of the running list. */
    method SpliceHead()
      requires ListsOk() && HasHead(View())
      modifies `running, `preempted, `waiting
      ensures ListsOk() && Nodes() == old(Nodes()) && View() == HeadJoins(old(View()))
    {
      hide K.KVCacheManager.View, ListsOk, Nodes;
      if preempted != [] {
        SplicePreempted();
      } else {
        SpliceWaiting();
      }
    }

    /** Shares the cached prefix of the oldest request that is not running. */
    method ReuseHead()
      requires Valid() && Apart() && HasHead(View()) && Head(View()).tokens != []
      modifies manager, manager.blocks, Nodes()
      ensures Valid() && View() == Reused(config, old(View()))
      ensures Apart() && Nodes() == old(Nodes()) && idToRequest == old(idToRequest)
    {
      hide K.KVCacheManager.Valid, K.KVCacheManager.View, ListsOk, Apart, Nodes, ReusePrefix, WithHead;
      BoundedPool();
      HeadIs();
      var numReused := manager.ReusePrefix(HeadNode().req);
      HeadOrPool(old(View()), HeadNode().req.(numComputed := numReused), manager.View());
      SetHead(HeadNode().req.(numComputed := numReused));
    }

    lemma BoundedPool()
      requires manager.Valid()
      ensures PoolInBounds(manager.View())
    {
    }

    method AllocateHead(n: nat) returns (ok: bool)
      requires Valid() && HasHead(View()) && n > 0 && K.CanAllocate(config, View().pool, Head(View()), n)
      modifies manager, manager.blocks
      ensures Valid() && (View(), ok) == HeadAllocated(config, old(View()), n)
      ensures old(Apart()) ==> Apart()
      ensures Nodes() == old(Nodes()) && idToRequest == old(idToRequest)
    {
      hide K.KVCacheManager.Valid, K.KVCacheManager.View, ListsOk, Values, K.Allocation, K.CanAllocate;
      HeadIs();
      ok := manager.AllocateSlots(HeadNode().req, n);
    }

    method ReturnHead()
      requires Valid() && Apart() && HasHead(View()) && Releasable(config, View().pool, Head(View()))
      modifies manager, manager.blocks, Nodes()
      ensures Valid() && View() == Returned(config, old(View()))
      ensures Nodes() == old(Nodes()) && idToRequest == old(idToRequest)
    {
      hide K.KVCacheManager.Valid, K.KVCacheManager.View, ListsOk, Apart, Nodes, Releasable, Release, WithHead;
      HeadIs();
      manager.ReleaseBlocks(HeadNode().req);
      HeadOrPool(old(View()), HeadNode().req.(numComputed := 0), manager.View());
      SetHead(HeadNode().req.(numComputed := 0));
    }

    /** Makes the oldest request that is not running a running one, with its share. */
    method JoinHead(n: nat) returns (e: Scheduled)
      requires Valid() && Apart() && n > 0 && Joinable(View(), n)
      modifies `running, `preempted, `waiting, Nodes()
      ensures Valid() && Nodes() == old(Nodes()) && idToRequest == old(idToRequest)
      ensures (View(), e) == Joined(old(View()), n)
    {
      hide K.KVCacheManager.Valid, K.KVCacheManager.Store, ListsOk, Apart, Values, Nodes, HeadJoins, WithHead;
      HeadIs();
      var r := HeadNode().req;
      var numPrefill := |r.tokens|;
      var numAfter := r.numComputed + n;
      var t := manager.GetAllocatedBlocks(r.id);
      e := Scheduled(r.id, true, numAfter >= numPrefill, r.numComputed, r.tokens[r.numComputed..numAfter], t, r.params);
      SetHead(r.(numPrefill := numPrefill, numComputed := numAfter, status := Status.Running));
      SpliceHead();
    }

    /** Admits the oldest request that is not running, unless its share does not fit. */
    method AdmitHead(budget: nat, ghost batch: seq<Scheduled>) returns (ok: bool, n: nat, entry: seq<Scheduled>)
      requires Valid() && AdmitNext(config, View(), budget, batch)
      modifies this, manager, manager.blocks, Nodes()
      ensures Valid() && Nodes() == old(Nodes()) && idToRequest == old(idToRequest)
      ensures AdmitOne(config, old(View()), View(), budget, batch, ok, n, entry)
    {
      hide View, Valid, Apart, Nodes, Order, NoDup, Releasable, AdmitNext, AdmitOne, Reused, Returned, Joined, Joinable,
           HasHead, Head, HeadShare, HeadAllocated, PoolInBounds, Enterable, Inv, K.CanAllocate, K.Allocation;
      ghost var s := View();
      HeadAllocates(config, s, budget, batch);
      NodesApart();
      ReuseHead();
      HeadIs();
      var r := HeadNode().req;
      HeadShareIs(config, s, budget);
      n := Min(|r.tokens| - r.numComputed, budget);
      ok := AllocateHead(n);
      if ok {
        HeadFits(config, s, budget, batch);
        var e := JoinHead(n);
        entry := [e];
      } else {
        HeadWaits(config, s, budget, batch);
        ReturnHead();
        entry := [];
      }
    }

    /** Pass 2: preempted requests, then waiting ones, until one does not fit. */
    method AdmitQueued(tokens: nat, served: seq<Scheduled>) returns (batch: seq<Scheduled>)
      requires Valid() && AdmitReady(config, View(), tokens, served)
      modifies this, manager, manager.blocks, Nodes()
      ensures Valid() && Nodes() == old(Nodes()) && idToRequest == old(idToRequest)
      ensures (View(), batch) == Admitted(config, old(View()), tokens, served)
    {
      hide K.KVCacheManager.Valid, K.KVCacheManager.Store, ListsOk, Values, Nodes, Admitted, AdmitReady;
      var budget: nat := tokens;
      batch := served;
      while (preempted != [] || waiting != []) && budget > 0 && |batch| < config.maxSeqs
        invariant Valid() && Nodes() == old(Nodes()) && idToRequest == old(idToRequest)
        invariant AdmitReady(config, View(), budget, batch)
        invariant Admitted(config, View(), budget, batch) == Admitted(config, old(View()), tokens, served)
        decreases budget
      {
        var ok, n, entry := AdmitHead(budget, batch);
        if !ok {
          return;
        }
        budget, batch := budget - n, batch + entry;
      }
      AdmitEnd(config, View(), budget, batch);
    }

    /** One scheduling step.  Requests change lists and their counts, but the sequence of
        nodes, and with it the arrival order, stays as it is. */
    method Schedule() returns (batch: seq<Scheduled>)
      requires Valid() && Inv(config, View(), [])
      modifies this, manager, manager.blocks, Nodes()
      ensures Valid() && Nodes() == old(Nodes()) && idToRequest == old(idToRequest)
      ensures (View(), batch) == Stepped(config, old(View()))
    {
      hide K.KVCacheManager.Valid, K.KVCacheManager.Store, ListsOk, Apart, Nodes, Inv, Order, NoDup, Served,
           Admitted, AdmitReady,
           Stepped;
      var numPreemptedBefore := |preempted|;
      var budget;
      budget, batch := ServeRunning(config.maxScheduledTokens);
      ServedStep(config, old(View()));
      if |preempted| == numPreemptedBefore {
        batch := AdmitQueued(budget, batch);
      }
    }

    // -------------------------------------------------------------- removal

    method HasRequests() returns (b: bool)
      requires ListsOk()
      ensures b <==> Order(View()) != []
    {
      b := idToRequest.Keys != {};
      assert Nodes() != [] ==> Nodes()[0].req.id in idToRequest.Keys;
      assert |Nodes()| == |Order(View())|;
    }

    /** The index finds a request exactly if one of the lists holds it. */
    lemma Indexed(id: Id)
      requires ListsOk()
      ensures id !in idToRequest ==>
                && (forall i :: 0 <= i < |running| ==> running[i].req.id != id)
                && (forall i :: 0 <= i < |preempted| ==> preempted[i].req.id != id)
                && (forall i :: 0 <= i < |waiting| ==> waiting[i].req.id != id)
      ensures id in idToRequest ==> idToRequest[id] in Nodes() && idToRequest[id].req.id == id
      ensures forall i :: 0 <= i < |running| ==>
                running[i].req.id in idToRequest && idToRequest[running[i].req.id] == running[i]
    {
      Listing();
    }

    lemma NodeInOrder(i: nat)
      requires i < |Nodes()|
      ensures i < |Order(View())| && Order(View())[i].id == Nodes()[i].req.id
    {
      hide K.KVCacheManager.View;
    }

    method EraseRunning(k: nat)
      requires ListsOk() && Distinct(Nodes()) && k < |running| == |View().running|
      modifies `running, `idToRequest
      ensures ListsOk() && idToRequest == old(idToRequest) - {old(running[k].req.id)}
      ensures View() == old(View()).(running := Delete(old(View().running), k))
      ensures forall n :: n in Nodes() ==> n in old(Nodes())
    {
      hide K.KVCacheManager.View, Indexes;
      IndexesErased(Nodes(), idToRequest, k);
      DeleteLeft(running, preempted, k);
      DeleteLeft(running + preempted, waiting, k);
      idToRequest := idToRequest - {running[k].req.id};
      running := Delete(running, k);
    }

    method ErasePreempted(k: nat)
      requires ListsOk() && Distinct(Nodes()) && k < |preempted| == |View().preempted|
      modifies `preempted, `idToRequest
      ensures ListsOk() && idToRequest == old(idToRequest) - {old(preempted[k].req.id)}
      ensures View() == old(View()).(preempted := Delete(old(View().preempted), k))
      ensures forall n :: n in Nodes() ==> n in old(Nodes())
    {
      hide K.KVCacheManager.View, Indexes;
      assert Nodes()[|running| + k] == preempted[k];
      IndexesErased(Nodes(), idToRequest, |running| + k);
      DeleteRight(running, preempted, k);
      DeleteLeft(running + preempted, waiting, |running| + k);
      idToRequest := idToRequest - {preempted[k].req.id};
      preempted := Delete(preempted, k);
    }

    method EraseWaiting(k: nat)
      requires ListsOk() && Distinct(Nodes()) && k < |waiting| == |View().waiting|
      modifies `waiting, `idToRequest
      ensures ListsOk() && idToRequest == old(idToRequest) - {old(waiting[k].req.id)}
      ensures View() == old(View()).(waiting := Delete(old(View().waiting), k))
      ensures forall n :: n in Nodes() ==> n in old(Nodes())
    {
      hide K.KVCacheManager.View, Indexes;
      assert Nodes()[|running| + |preempted| + k] == waiting[k];
      IndexesErased(Nodes(), idToRequest, |running| + |preempted| + k);
      DeleteRight(running + preempted, waiting, k);
      idToRequest := idToRequest - {waiting[k].req.id};
      waiting := Delete(waiting, k);
    }

    /** A listed node is in the list that its status names. */
    lemma WhereIs(node: Node)
      requires Placed(View()) && node in Nodes()
      ensures |View().running| == |running| && |View().preempted| == |preempted| && |View().waiting| == |waiting|
      ensures forall i :: 0 <= i < |running| ==> View().running[i] == running[i].req
      ensures forall i :: 0 <= i < |preempted| ==> View().preempted[i] == preempted[i].req
      ensures forall i :: 0 <= i < |waiting| ==> View().waiting[i] == waiting[i].req
      ensures match node.req.status
              case Running => node in running
              case Preempted => node in preempted
              case Waiting => node in waiting
    {
      hide K.KVCacheManager.View, Order, NoDup;
      assert node in running || node in preempted || node in waiting;
    }

    method ReleaseRequest(node: Node)
      requires Valid() && Releasable(config, View().pool, node.req)
      modifies manager, manager.blocks
      ensures Valid() && View() == old(View()).(pool := Release(config, old(View().pool), node.req))
      ensures Nodes() == old(Nodes()) && idToRequest == old(idToRequest)
      ensures running == old(running) && preempted == old(preempted) && waiting == old(waiting)
    {
      hide K.KVCacheManager.Valid, K.KVCacheManager.View, ListsOk, Values, Releasable, Release;
      manager.ReleaseBlocks(node.req);
    }

    /** Takes a request out of the list its status names and gives its blocks back. */
    method RemoveRequest(node: Node)
      requires Valid() && Placed(View()) && node in Nodes() && Releasable(config, View().pool, node.req)
      modifies this, manager, manager.blocks
      ensures Valid() && View() == Removed(config, old(View()), node.req.id)
      ensures idToRequest == old(idToRequest) - {node.req.id}
      ensures forall n :: n in Nodes() ==> n in old(Nodes())
    {
      hide View, Order, NoDup, Releasable, Release, Removed, Apart, Distinct, Indexes, Delete, Nodes;
      NodesApart();
      ghost var s := View();
      WhereIs(node);
      ReleaseRequest(node);
      match node.req.status {
        case Running =>
          var at :| 0 <= at < |running| && running[at] == node;
          RemovedRunning(config, s, at);
          EraseRunning(at);
        case Preempted =>
          ReleasesNothing(config, s.pool, node.req);
          var at :| 0 <= at < |preempted| && preempted[at] == node;
          RemovedPreempted(config, s, at);
          ErasePreempted(at);
        case Waiting =>
          ReleasesNothing(config, s.pool, node.req);
          var at :| 0 <= at < |waiting| && waiting[at] == node;
          RemovedWaiting(config, s, at);
          EraseWaiting(at);
      }
    }

    /** Unknown ids are ignored. */
    method AbortRequests(ids: seq<Id>)
      requires Valid() && Inv(config, View(), [])
      modifies this, manager, manager.blocks
      ensures Valid() && Inv(config, View(), []) && View() == AbortAll(config, old(View()), ids)
      ensures idToRequest.Keys == old(idToRequest).Keys - (set id | id in ids)
      ensures forall n :: n in Nodes() ==> n in old(Nodes())
    {
      hide View, Valid, Inv, Order, NoDup, Releasable, Removed, Nodes, Placed;
      assert ids[0..] == ids;
      for k := 0 to |ids|
        invariant Valid() && Inv(config, View(), [])
        invariant AbortAll(config, View(), ids[k..]) == AbortAll(config, old(View()), ids)
        invariant idToRequest.Keys == old(idToRequest).Keys - (set id | id in ids[..k])
        invariant forall n :: n in Nodes() ==> n in old(Nodes())
      {
        assert ids[k..][0] == ids[k] && ids[k..][1..] == ids[k + 1..] && ids[..k + 1] == ids[..k] + [ids[k]];
        RemovedKeepsInv(config, View(), ids[k]);
        if ids[k] in idToRequest {
          Abortable(ids[k]);
          RemoveRequest(idToRequest[ids[k]]);
        } else {
          NotListed(ids[k]);
        }
      }
      assert ids[..|ids|] == ids;
    }

    lemma Abortable(id: Id)
      requires Valid() && Inv(config, View(), []) && id in idToRequest
      ensures idToRequest[id] in Nodes() && idToRequest[id].req.id == id
      ensures Placed(View()) && Releasable(config, View().pool, idToRequest[id].req)
    {
      hide K.KVCacheManager.Valid, K.KVCacheManager.View, Inv, Releasable;
      Indexed(id);
      AllReleasable(config, View());
      WhereIs(idToRequest[id]);
    }

    lemma NotListed(id: Id)
      requires Valid() && id !in idToRequest
      ensures Removed(config, View(), id) == View()
    {
      hide K.KVCacheManager.Valid, K.KVCacheManager.View, Removed;
      Indexed(id);
      RemovedUnknown(config, View(), id);
    }

    // -------------------------------------------------------------- delivery

    /** The node of a running request is the one its id is indexed under. */
    lemma RunningNode(id: Id)
      requires Valid() && HasId(View().running, id)
      ensures id in idToRequest && idToRequest[id] in Nodes()
      ensures |View().running| == |running|
      ensures var i := Find(View().running, id);
              i < |running| && running[i] == idToRequest[id] && running[i].req == View().running[i]
                  && running[i].req.id == id
    {
      hide K.KVCacheManager.Valid, K.KVCacheManager.View, Nodes;
      FindsIt(View().running, id);
      RunningIs();
      Indexed(id);
    }

    /** Appends a sampled token to a running request. */
    method PushToken(node: Node, ghost i: nat, x: Sampled)
      requires Valid() && Apart() && i < |running| && running[i] == node
      modifies node
      ensures Valid() && node.req == Grow(old(node.req), x.token) && node.req.id == old(node.req.id)
                && View() == Appended(old(View()), i, x)
      ensures Nodes() == old(Nodes()) && idToRequest == old(idToRequest)
    {
      hide K.KVCacheManager.Valid, K.KVCacheManager.View;
      node.req := Grow(node.req, x.token);
    }

    /** Delivers the sampled tokens; the lookup of a request by its id never misses. */
    method Update(sampled: seq<Sampled>) returns (outputs: seq<Output>)
      requires Valid() && Owed(config, View(), sampled)
      modifies this, manager, manager.blocks, Nodes()
      ensures Valid() && Owed(config, View(), []) && (View(), outputs) == Updated(config, old(View()), sampled)
      ensures AllAnnounced(config, old(View()).running, sampled, outputs)
      ensures idToRequest.Keys <= old(idToRequest).Keys
      ensures forall n :: n in Nodes() ==> n in old(Nodes())
    {
      hide View, Valid, Apart, Owed, AllAnnounced, Updated, Removed, Placed, NoDup, Order, Releasable, Nodes, Appended,
           Find, HasId, Grow, FinishReason;
      outputs := [];
      assert sampled[0..] == sampled;
      UpdatedAnnounces(config, View(), sampled);
      ghost var all := Updated(config, View(), sampled);
      assert [] + all.1 == all.1;
      for k := 0 to |sampled|
        invariant Valid() && Owed(config, View(), sampled[k..])
        invariant Updated(config, View(), sampled[k..]).0 == all.0
        invariant outputs + Updated(config, View(), sampled[k..]).1 == all.1
        invariant idToRequest.Keys <= old(idToRequest).Keys
        invariant forall n :: n in Nodes() ==> n in old(Nodes())
      {
        ghost var s, rest := View(), sampled[k..];
        assert rest[0] == sampled[k] && rest[1..] == sampled[k + 1..];
        UpdateRound(config, s, rest);
        RunningNode(sampled[k].id);
        UpdateApart(rest);
        var node := idToRequest[sampled[k].id];
        PushToken(node, Find(s.running, sampled[k].id), sampled[k]);
        var reason := FinishReason(config, node.req, sampled[k].eos);
        ghost var before := outputs;
        outputs := outputs + [Output(sampled[k].id, sampled[k].token, reason)];
        if reason != GoOn {
          RemoveRequest(node);
        }
        ghost var left := Updated(config, View(), sampled[k + 1..]).1;
        Shift(before, outputs[|before|], left);
      }
      assert sampled[|sampled|..] == [] && outputs + [] == outputs;
      UpdateEnd(config, View());
    }

    lemma UpdateApart(rest: seq<Sampled>)
      requires Owed(config, View(), rest)
      ensures Apart()
    {
      hide View, Order, NoDup, Base;
      OwedNoDup(config, View(), rest);
      NodesApart();
    }
  }
}
