/** What the frontend has heard so far, request by request, against the lone decoder. */
module History {
  import opened Types
  import opened Decoder
  import opened SchedulerModel
  import opened Lifecycle

  /** The outputs that concern one request, in order. */
  function LogOf(log: seq<Output>, id: Id): seq<Output> {
    if log == [] then []
    else LogOf(log[..|log| - 1], id) + if log[|log| - 1].id == id then [log[|log| - 1]] else []
  }

  lemma LogSnoc(log: seq<Output>, out: Output, id: Id)
    ensures LogOf(log + [out], id) == if out.id == id then LogOf(log, id) + [out] else LogOf(log, id)
  {
    assert (log + [out])[..|log|] == log;
  }

  lemma {:induction false} LogEmpty(log: seq<Output>, id: Id)
    requires forall i :: 0 <= i < |log| ==> log[i].id != id
    ensures LogOf(log, id) == []
  {
    if log != [] { LogEmpty(log[..|log| - 1], id); }
  }

  /** What was heard is never taken back. */
  lemma {:induction false} LogGrows(log: seq<Output>, more: seq<Output>, id: Id)
    ensures LogOf(log, id) <= LogOf(log + more, id)
    decreases |more|
  {
    if more == [] {
      assert log + more == log;
    } else {
      var front, out := more[..|more| - 1], more[|more| - 1];
      LogGrows(log, front, id);
      assert log + more == (log + front) + [out];
      LogSnoc(log + front, out, id);
    }
  }

  function TokensOf(outs: seq<Output>): (r: seq<Token>)
    ensures |r| == |outs| && forall i :: 0 <= i < |outs| ==> r[i] == outs[i].token
  {
    seq(|outs|, i requires 0 <= i < |outs| => outs[i].token)
  }

  lemma TokensSnoc(heard: seq<Output>, out: Output)
    ensures TokensOf(heard + [out]) == TokensOf(heard) + [out.token]
  {
  }

  ghost predicate Absent(order: seq<Request>, id: Id) {
    forall i :: 0 <= i < |order| ==> order[i].id != id
  }

  // ---------------------------------------------------------------- the ledger

  /** What is claimed of an accepted request and the outputs heard about it: while it is
      live, from its present value, and once it is gone, aborted or not. */
  datatype Story = Story(live: (Request, Request, seq<Output>) -> bool, gone: (Request, seq<Output>, bool) -> bool)

  /** The story is true of every request ever accepted. */
  ghost predicate Ledger(
    story: Story, order: seq<Request>, log: seq<Output>, added: map<Id, Request>, aborted: set<Id>)
  {
    && (forall i :: 0 <= i < |order| ==>
          order[i].id in added && order[i].id !in aborted
          && story.live(added[order[i].id], order[i], LogOf(log, order[i].id)))
    && (forall id :: id in added ==> added[id].id == id)
    && (forall id :: id in added && Absent(order, id) ==> story.gone(added[id], LogOf(log, id), id in aborted))
    && (forall i :: 0 <= i < |log| ==> log[i].id in added)
    && aborted <= added.Keys
  }

  /** An output about place i of the order: the request there grows or goes. */
  function AfterOutput(order: seq<Request>, i: nat, out: Output): seq<Request>
    requires i < |order|
  {
    if out.reason == GoOn then order[i := Grow(order[i], out.token)] else Delete(order, i)
  }

  /** An output that continues the story of one live request, or ends it, leaves it true of
      all. */
  lemma OutputKeepsLedger(
    story: Story, order: seq<Request>, log: seq<Output>, added: map<Id, Request>, aborted: set<Id>, i: nat, out: Output)
    requires Ledger(story, order, log, added, aborted) && NoDup(order) && i < |order| && out.id == order[i].id
    requires var heard := LogOf(log, out.id) + [out];
             if out.reason == GoOn then story.live(added[out.id], Grow(order[i], out.token), heard)
             else story.gone(added[out.id], heard, false)
    ensures Ledger(story, AfterOutput(order, i, out), log + [out], added, aborted)
  {
    hide LogOf;
    var order' := AfterOutput(order, i, out);
    LogSnoc(log, out, out.id);
    forall j | 0 <= j < |order'|
      ensures order'[j].id in added && order'[j].id !in aborted
      ensures story.live(added[order'[j].id], order'[j], LogOf(log + [out], order'[j].id))
    {
      var k := if out.reason == GoOn || j < i then j else j + 1;
      if k != i {
        assert order'[j] == order[k] && order[k].id != out.id;
        LogSnoc(log, out, order[k].id);
      }
    }
    assert out.reason == GoOn ==> order'[i].id == out.id;
    forall id | id in added && Absent(order', id)
      ensures story.gone(added[id], LogOf(log + [out], id), id in aborted)
    {
      LogSnoc(log, out, id);
      if id != out.id { AbsentBefore(order, order', i, id); }
    }
  }

  lemma AbsentBefore(order: seq<Request>, order': seq<Request>, i: nat, id: Id)
    requires i < |order| && order[i].id != id && Absent(order', id)
    requires || order' == Delete(order, i)
             || (|order'| == |order| && forall j :: 0 <= j < |order| && j != i ==> order'[j] == order[j])
    ensures Absent(order, id)
  {
    forall j | 0 <= j < |order|
      ensures order[j].id != id
    {
      if j != i {
        if |order'| == |order| { assert order'[j] == order[j]; }
        else { assert order'[if j < i then j else j - 1] == order[j]; }
      }
    }
  }

  lemma AddKeepsLedger(
    story: Story, order: seq<Request>, log: seq<Output>, added: map<Id, Request>, aborted: set<Id>, r: Request)
    requires Ledger(story, order, log, added, aborted) && r.id !in added && story.live(r, r, [])
    ensures Ledger(story, order + [r], log, added[r.id := r], aborted)
  {
    LogEmpty(log, r.id);
    var order', added' := order + [r], added[r.id := r];
    forall id | id in added' && Absent(order', id)
      ensures story.gone(added'[id], LogOf(log, id), id in aborted)
    {
      assert order'[|order|].id != id;
      assert forall j :: 0 <= j < |order| ==> order'[j] == order[j];
      assert Absent(order, id);
    }
  }

  lemma AbortKeepsLedger(
    story: Story, order: seq<Request>, log: seq<Output>, added: map<Id, Request>, aborted: set<Id>, i: nat)
    requires Ledger(story, order, log, added, aborted) && NoDup(order) && i < |order|
    requires story.gone(added[order[i].id], LogOf(log, order[i].id), true)
    ensures Ledger(story, Delete(order, i), log, added, aborted + {order[i].id})
  {
    hide LogOf;
    var r, order' := order[i], Delete(order, i);
    forall j | 0 <= j < |order'|
      ensures order'[j] == order[if j < i then j else j + 1] && order'[j].id != r.id
    {
    }
    forall id | id in added && Absent(order', id)
      ensures story.gone(added[id], LogOf(log, id), id in aborted + {r.id})
    {
      if id != r.id { AbsentBefore(order, order', i, id); }
    }
  }

  // ---------------------------------------------------------------- the lone decoder's story

  /** r is request a part-way through its lone run, and the log holds exactly the outputs
      of that run so far. */
  ghost predicate Tracked(c: Config, w: World, a: Request, r: Request, heard: seq<Output>) {
    && r == a.(tokens := a.tokens + TokensOf(heard))
    && heard + SoloOutputs(c, w, r) == SoloOutputs(c, w, a)
  }

  /** A request that is no longer live was heard to the end, unless it was aborted. */
  ghost predicate Settled(c: Config, w: World, a: Request, heard: seq<Output>, aborted: bool) {
    if aborted then heard < SoloOutputs(c, w, a) else heard == SoloOutputs(c, w, a)
  }

  ghost function SoloStory(c: Config, w: World): Story {
    Story((a, r, heard) => Tracked(c, w, a, r, heard), (a, heard, aborted) => Settled(c, w, a, heard, aborted))
  }

  ghost predicate Consistent(
    c: Config, w: World, order: seq<Request>, log: seq<Output>, added: map<Id, Request>, aborted: set<Id>)
  {
    Ledger(SoloStory(c, w), order, log, added, aborted)
  }

  function NextOutput(c: Config, w: World, r: Request): Output {
    var t := NextToken(w, r);
    Output(r.id, t, FinishReason(c, Grow(r, t), w.isEos(t)))
  }

  lemma SoloUnfold(c: Config, w: World, r: Request)
    ensures var out := NextOutput(c, w, r);
            var r' := Grow(r, out.token);
            && SoloOutputs(c, w, r) == [out] + (if out.reason == GoOn then SoloOutputs(c, w, r') else [])
            && SoloTranscript(c, w, r) == (if out.reason == GoOn then SoloTranscript(c, w, r') else r'.tokens)
  {
  }

  lemma DeliverOne(c: Config, w: World, a: Request, r: Request, heard: seq<Output>)
    requires Tracked(c, w, a, r, heard)
    ensures var out := NextOutput(c, w, r);
            if out.reason == GoOn then Tracked(c, w, a, Grow(r, out.token), heard + [out])
            else Settled(c, w, a, heard + [out], false)
  {
    hide SoloOutputs, SoloTranscript, NextOutput;
    SoloUnfold(c, w, r);
    var out := NextOutput(c, w, r);
    TokensSnoc(heard, out);
    var r' := Grow(r, out.token);
    if out.reason == GoOn {
      assert (heard + [out]) + SoloOutputs(c, w, r') == heard + ([out] + SoloOutputs(c, w, r'));
    } else {
      assert [out] + [] == [out];
    }
  }

  lemma NextOutputId(c: Config, w: World, r: Request)
    ensures NextOutput(c, w, r).id == r.id
  {
  }

  /** Delivering the lone decoder's next token to one live request keeps the log right. */
  lemma DeliverKeepsConsistent(
    c: Config, w: World, order: seq<Request>, log: seq<Output>, added: map<Id, Request>, aborted: set<Id>, i: nat)
    requires Consistent(c, w, order, log, added, aborted) && NoDup(order) && i < |order|
    ensures var out := NextOutput(c, w, order[i]);
            Consistent(c, w, AfterOutput(order, i, out), log + [out], added, aborted)
  {
    hide Tracked, Settled, NextOutput, LogOf, NoDup;
    var r, out := order[i], NextOutput(c, w, order[i]);
    NextOutputId(c, w, r);
    assert Tracked(c, w, added[r.id], r, LogOf(log, r.id));
    DeliverOne(c, w, added[r.id], r, LogOf(log, r.id));
    OutputKeepsLedger(SoloStory(c, w), order, log, added, aborted, i, out);
  }

  lemma AddKeepsConsistent(
    c: Config, w: World, order: seq<Request>, log: seq<Output>, added: map<Id, Request>, aborted: set<Id>, r: Request)
    requires Consistent(c, w, order, log, added, aborted) && r.id !in added
    ensures Consistent(c, w, order + [r], log, added[r.id := r], aborted)
  {
    hide SoloOutputs, SoloTranscript;
    assert Tracked(c, w, r, r, []) by {
      assert [] + SoloOutputs(c, w, r) == SoloOutputs(c, w, r);
    }
    AddKeepsLedger(SoloStory(c, w), order, log, added, aborted, r);
  }

  lemma AbortKeepsConsistent(
    c: Config, w: World, order: seq<Request>, log: seq<Output>, added: map<Id, Request>, aborted: set<Id>, i: nat)
    requires Consistent(c, w, order, log, added, aborted) && NoDup(order) && i < |order|
    ensures Consistent(c, w, Delete(order, i), log, added, aborted + {order[i].id})
  {
    hide Tracked, Settled, LogOf, NoDup;
    var r := order[i];
    assert Tracked(c, w, added[r.id], r, LogOf(log, r.id));
    AbortOne(c, w, added[r.id], r, LogOf(log, r.id));
    AbortKeepsLedger(SoloStory(c, w), order, log, added, aborted, i);
  }

  lemma AbortOne(c: Config, w: World, a: Request, r: Request, heard: seq<Output>)
    requires Tracked(c, w, a, r, heard)
    ensures Settled(c, w, a, heard, true)
  {
    SoloUnfold(c, w, r);
    hide SoloOutputs, SoloTranscript, NextOutput;
  }
}
