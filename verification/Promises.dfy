/** What a request may expect, in the frontend's own terms: from the fields it sent, the draws
    made for it and the end-of-sequence test, and from nothing the engine does. */
module Promises {
  import opened Types
  import opened Arith
  import opened Decoder
  import opened SchedulerModel
  import opened Lifecycle
  import opened History

  // ---------------------------------------------------------------- one output

  /** Why output k ends the request, or does not. */
  ghost predicate ReasonAt(c: Config, w: World, a: Arrival, heard: seq<Output>, k: nat)
    requires k < |heard|
  {
    && (heard[k].reason == Stop <==> !a.ignoreEos && w.isEos(heard[k].token))
    && (heard[k].reason == Length <==>
          heard[k].reason != Stop && (k + 1 >= a.maxOutput || |a.tokens| + k + 1 >= c.maxModelLen))
  }

  /** Output k carries a token drawn under the request's parameters, after a context as long
      as its prompt and the k tokens before. */
  ghost predicate HeardAt(c: Config, w: World, a: Arrival, heard: seq<Output>, k: nat)
    requires k < |heard|
  {
    && heard[k].id == a.id && ReasonAt(c, w, a, heard, k)
    && exists context: seq<KV> :: |context| == |a.tokens| + k && heard[k].token == w.next(a.id, context, a.params)
  }

  ghost predicate Heard(c: Config, w: World, a: Arrival, heard: seq<Output>) {
    forall k: nat :: k < |heard| ==> HeardAt(c, w, a, heard, k)
  }

  /** This context is that of exactly the prompt and the k tokens before, computed alone. */
  ghost predicate AloneAt(c: Config, w: World, a: Arrival, heard: seq<Output>, k: nat)
    requires k < |heard|
  {
    && heard[k].id == a.id && ReasonAt(c, w, a, heard, k)
    && heard[k].token == w.next(a.id, Solo(a.tokens + TokensOf(heard[..k])), a.params)
  }

  ghost predicate Alone(c: Config, w: World, a: Arrival, heard: seq<Output>) {
    forall k: nat :: k < |heard| ==> AloneAt(c, w, a, heard, k)
  }

  ghost predicate AllGoOn(heard: seq<Output>) {
    forall k :: 0 <= k < |heard| ==> heard[k].reason == GoOn
  }

  /** Exactly the last output is terminal. */
  ghost predicate Closed(heard: seq<Output>) {
    heard != [] && forall k :: 0 <= k < |heard| ==> (heard[k].reason == GoOn <==> k < |heard| - 1)
  }

  // ---------------------------------------------------------------- how many outputs

  /** Nobody hears more tokens than it asked for, but one at least, or than fit the model. */
  lemma HeardLimits(c: Config, w: World, a: Arrival, heard: seq<Output>)
    requires Heard(c, w, a, heard) && |a.tokens| < c.maxModelLen
    requires forall k :: 0 <= k < |heard| - 1 ==> heard[k].reason == GoOn
    ensures |a.tokens| + |heard| <= c.maxModelLen && (|heard| > 1 ==> |heard| <= a.maxOutput)
  {
    if |heard| > 1 { assert HeardAt(c, w, a, heard, |heard| - 2); }
  }

  /** A request that ignores the end of sequence gets exactly what it asked for, as far as it
      fits the model. */
  lemma FullLength(c: Config, w: World, a: Arrival, heard: seq<Output>)
    requires Heard(c, w, a, heard) && Closed(heard) && a.ignoreEos && |a.tokens| < c.maxModelLen
    ensures |heard| == Max(1, Min(a.maxOutput, c.maxModelLen - |a.tokens|))
  {
    assert HeardAt(c, w, a, heard, |heard| - 1);
    if |heard| > 1 { assert HeardAt(c, w, a, heard, |heard| - 2); }
  }

  /** Any other request ends with the first end-of-sequence token, if that comes before. */
  lemma EosEnds(c: Config, w: World, a: Arrival, heard: seq<Output>, k: nat)
    requires Heard(c, w, a, heard) && (Closed(heard) || AllGoOn(heard)) && !a.ignoreEos
    requires k < |heard| && w.isEos(heard[k].token)
    ensures Closed(heard) && k == |heard| - 1 && heard[k].reason == Stop
  {
    assert HeardAt(c, w, a, heard, k);
  }

  // ---------------------------------------------------------------- the lone decoder

  /** What the accepted record makes of the arrival's limits. */
  lemma ReasonIs(c: Config, a: Arrival, xs: seq<Token>, eos: bool)
    requires xs != []
    ensures var r := Core(Accept(a)).(tokens := a.tokens + xs);
            var reason := FinishReason(c, r, eos);
            && (reason == Stop <==> !a.ignoreEos && eos)
            && (reason == Length <==> reason != Stop && (|xs| >= a.maxOutput || |a.tokens| + |xs| >= c.maxModelLen))
  {
  }

  lemma RecordIs(a: Arrival)
    ensures var r := Core(Accept(a)); r.id == a.id && r.tokens == a.tokens && r.params == a.params
  {
  }

  lemma TokensCons(out: Output, outs: seq<Output>)
    ensures TokensOf([out] + outs) == [out.token] + TokensOf(outs)
  {
  }

  /** A lone run says one token at a time, is terminal at its last output only, and its
      transcript is the prompt followed by those tokens. */
  lemma {:induction false} SoloShape(c: Config, w: World, r: Request)
    ensures var outs := SoloOutputs(c, w, r);
            && (forall k :: 0 <= k < |outs| ==> outs[k].id == r.id)
            && (forall k :: 0 <= k < |outs| ==> (outs[k].reason == GoOn <==> k < |outs| - 1))
            && SoloTranscript(c, w, r) == r.tokens + TokensOf(outs)
    decreases c.maxModelLen - |r.tokens|
  {
    hide SoloOutputs, SoloTranscript, NextToken;
    var out := NextOutput(c, w, r);
    var r' := Grow(r, out.token);
    SoloUnfold(c, w, r);
    var outs := SoloOutputs(c, w, r);
    if out.reason == GoOn {
      SoloShape(c, w, r');
      var outs' := SoloOutputs(c, w, r');
      assert forall k :: 1 <= k < |outs| ==> outs[k] == outs'[k - 1];
      TokensCons(out, outs');
      Shift(r.tokens, out.token, TokensOf(outs'));
    } else {
      assert outs == [out];
      assert r'.tokens == r.tokens + TokensOf(outs);
    }
  }

  /** Output k of the lone run of r: token and reason follow from the tokens before it. */
  ghost predicate FollowsAt(c: Config, w: World, r: Request, outs: seq<Output>, k: nat)
    requires k < |outs|
  {
    && outs[k].id == r.id && outs[k].token == w.next(r.id, Solo(r.tokens + TokensOf(outs[..k])), r.params)
    && outs[k].reason ==
         FinishReason(c, r.(tokens := r.tokens + TokensOf(outs[..k + 1])), w.isEos(outs[k].token))
  }

  lemma {:induction false} SoloFollows(c: Config, w: World, r: Request, k: nat)
    requires k < |SoloOutputs(c, w, r)|
    ensures FollowsAt(c, w, r, SoloOutputs(c, w, r), k)
    decreases k
  {
    hide SoloOutputs, SoloTranscript, Solo;
    SoloUnfold(c, w, r);
    var out, outs := NextOutput(c, w, r), SoloOutputs(c, w, r);
    if k == 0 {
      assert outs[..0] == [] && r.tokens + [] == r.tokens && outs[..1] == [out];
    } else {
      var r' := Grow(r, out.token);
      var outs' := SoloOutputs(c, w, r');
      SoloFollows(c, w, r', k - 1);
      assert outs[..k] == [out] + outs'[..k - 1] && outs[..k + 1] == [out] + outs'[..k];
      TokensCons(out, outs'[..k - 1]);
      TokensCons(out, outs'[..k]);
      Shift(r.tokens, out.token, TokensOf(outs'[..k - 1]));
      Shift(r.tokens, out.token, TokensOf(outs'[..k]));
    }
  }

  /** The lone decoder does as promised, from the arrival's own fields. */
  lemma SoloIsAlone(c: Config, w: World, a: Arrival)
    ensures var outs := SoloOutputs(c, w, Core(Accept(a))); Alone(c, w, a, outs) && Closed(outs)
  {
    hide SoloOutputs, SoloTranscript, FinishReason, Solo, Accept;
    var r := Core(Accept(a));
    var outs := SoloOutputs(c, w, r);
    SoloShape(c, w, r);
    RecordIs(a);
    forall k: nat | k < |outs|
      ensures AloneAt(c, w, a, outs, k)
    {
      SoloFollows(c, w, r, k);
      ReasonIs(c, a, TokensOf(outs[..k + 1]), w.isEos(outs[k].token));
    }
  }

  lemma AlonePrefix(c: Config, w: World, a: Arrival, heard: seq<Output>, all: seq<Output>)
    requires Alone(c, w, a, all) && Closed(all) && heard <= all
    ensures Alone(c, w, a, heard) && (if heard == all then Closed(heard) else AllGoOn(heard))
  {
    hide Solo;
    forall k: nat | k < |heard|
      ensures AloneAt(c, w, a, heard, k)
    {
      assert AloneAt(c, w, a, all, k);
      assert heard[..k] == all[..k] && heard[k] == all[k];
    }
  }

  /** There is no other way to keep the promise: two runs that do agree as far as both go. */
  lemma {:induction false} AloneIsUnique(c: Config, w: World, a: Arrival, x: seq<Output>, y: seq<Output>, n: nat)
    requires Alone(c, w, a, x) && Alone(c, w, a, y) && n <= |x| && n <= |y|
    ensures x[..n] == y[..n]
  {
    hide Solo;
    if n > 0 {
      AloneIsUnique(c, w, a, x, y, n - 1);
      assert AloneAt(c, w, a, x, n - 1) && AloneAt(c, w, a, y, n - 1);
      assert x[n - 1].reason == y[n - 1].reason;
      assert x[..n] == x[..n - 1] + [x[n - 1]] && y[..n] == y[..n - 1] + [y[n - 1]];
    }
  }
}
