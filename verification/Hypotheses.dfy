/** The hypotheses of the run theorems can all hold at once, with blocks full and shared. */
module Hypotheses {
  import opened Types
  import opened Arith
  import opened CachePool
  import opened PoolInvariant
  import opened PoolContent
  import opened Decoder
  import opened SchedulerModel
  import opened StepTheorems
  import opened Lifecycle
  import opened EngineModel
  import opened History
  import opened EngineRuns
  import opened Protocol
  import opened Guarantees

  predicate Binary(tokens: seq<Token>) {
    forall i :: 0 <= i < |tokens| ==> tokens[i] == 0 || tokens[i] == 1
  }

  /** Appends a block of one binary token to the hash. */
  function AppendBit(h: Hash, block: seq<Token>): Hash {
    2 * h + if block != [] && block[0] == 1 then 1 else 0
  }

  function SmallConfig(): Config {
    Config(1, 8, true, AppendBit, 2, 4, 8)
  }

  lemma Empty(P: seq<Token>, m: nat)
    requires |P| == Span(1, m)
    ensures m == 0 ==> P == [] && Chain(SmallConfig(), P, m) == HASH_SEED
  {
  }

  /** On binary tokens this hash forgets nothing. */
  lemma {:induction false} BitsInjective(P: seq<Token>, Q: seq<Token>, m: nat, n: nat)
    requires Binary(P) && Binary(Q) && |P| == Span(1, m) && |Q| == Span(1, n)
    requires Chain(SmallConfig(), P, m) == Chain(SmallConfig(), Q, n)
    ensures P == Q
  {
    hide Chain, Span, SmallConfig;
    SpanIsProduct(1, m);
    SpanIsProduct(1, n);
    Empty(P, m);
    Empty(Q, n);
    if m > 0 && n > 0 {
      LastBit(P, m);
      LastBit(Q, n);
      BitsInjective(P[..m - 1], Q[..n - 1], m - 1, n - 1);
      assert P == P[..m - 1] + [P[m - 1]] && Q == Q[..n - 1] + [Q[n - 1]];
    } else if m > 0 {
      LastBit(P, m);
      AtLeastSeed(P[..m - 1], m - 1);
    } else if n > 0 {
      LastBit(Q, n);
      AtLeastSeed(Q[..n - 1], n - 1);
    }
  }

  lemma LastBit(P: seq<Token>, m: nat)
    requires Binary(P) && |P| == m > 0
    ensures Span(1, m) == m && Span(1, m - 1) == m - 1 && |P[..m - 1]| == m - 1 && Binary(P[..m - 1])
    ensures Chain(SmallConfig(), P, m) == 2 * Chain(SmallConfig(), P[..m - 1], m - 1) + P[m - 1]
  {
    var c := SmallConfig();
    SpanIsProduct(1, m);
    SpanIsProduct(1, m - 1);
    assert BlockTokens(c, P, m - 1) == [P[m - 1]];
    ChainPrefix(c, P[..m - 1], P, m - 1);
  }

  lemma {:induction false} AtLeastSeed(P: seq<Token>, m: nat)
    requires Span(1, m) <= |P|
    ensures Chain(SmallConfig(), P, m) >= HASH_SEED
  {
    if m > 0 { AtLeastSeed(P, m - 1); }
  }

  /** A decoder that always says zero. */
  function Zero(id: Id, context: seq<KV>, params: SampleParams): Token { 0 }

  function Never(t: Token): bool { false }

  function SmallWorld(): World {
    World(Zero, Never)
  }

  /** Two requests of which the second starts with the whole first prompt. */
  function SmallRun(): seq<Event> {
    var params := SampleParams(0.0, 0, 1.0);
    [Add(Arrival("a", 3, true, [1, 0, 1], params)), Step, Add(Arrival("b", 3, true, [1, 0, 1, 1], params)), Step, Step]
  }

  /** All that is said in a run of this decoder are zeros. */
  lemma ToldZeros(c: Config, a: Request, heard: seq<Output>)
    requires Told(c, SmallWorld(), a, heard)
    ensures Binary(TokensOf(heard))
  {
    hide FinishReason;
    forall k: nat | k < |heard|
      ensures TokensOf(heard)[k] == 0
    {
      assert ToldAt(c, SmallWorld(), a, heard, k);
    }
  }

  ghost predicate BinaryPrompts(added: map<Id, Request>) {
    forall id :: id in added ==> Binary(added[id].tokens)
  }

  lemma {:induction false} RunBinary(c: Config, w: World, g: Engine, events: seq<Event>)
    requires RunOk(c, g, events) && BinaryPrompts(g.added)
    requires forall i :: 0 <= i < |events| && events[i].Add? ==> Binary(events[i].a.tokens)
    ensures BinaryPrompts(Run(c, w, g, events).added)
    decreases |events|
  {
    hide Good, Binary, StepEngine;
    if events != [] {
      RunRest(c, w, g, events);
      assert forall i :: 0 <= i < |events[1..]| ==> events[1..][i] == events[i + 1];
      RunBinary(c, w, Apply(c, w, g, events[0]), events[1..]);
    }
  }

  lemma SmallIsBinary(P: seq<Token>)
    requires ArrivalsOk(SmallConfig(), SmallRun()) && P in Occurring(SmallConfig(), SmallWorld(), SmallRun())
    ensures Binary(P)
  {
    var c, w, es := SmallConfig(), SmallWorld(), SmallRun();
    hide SmallConfig, SmallWorld, Good, Run, RunOk, ArrivalsOk, Told, Order, LogOf;
    EveryRunOrderly(c, w, es);
    RunBinary(c, w, Start(c), es);
    var g := Run(c, w, Start(c), es);
    var id :| id in g.added && P <= Spoken(g.added, g.log, id);
    OrderlyProtocol(c, w, g, id);
    ToldZeros(c, g.added[id], LogOf(g.log, id));
  }

  lemma SmallRunOk()
    ensures CapacityOk(SmallConfig()) && ArrivalsOk(SmallConfig(), SmallRun())
  {
  }

  lemma HypothesesCanHold()
    ensures CapacityOk(SmallConfig()) && ArrivalsOk(SmallConfig(), SmallRun())
    ensures HashInjective(SmallConfig(), Occurring(SmallConfig(), SmallWorld(), SmallRun()))
  {
    SmallRunOk();
    hide Occurring, Chain, SmallRun, SmallWorld, CapacityOk, ArrivalsOk;
    var c := SmallConfig();
    var U := Occurring(c, SmallWorld(), SmallRun());
    forall P, Q, m: nat, n: nat |
      P in U && Q in U && m > 0 && n > 0
      && |P| == Span(c.blockSize, m) && |Q| == Span(c.blockSize, n) && Chain(c, P, m) == Chain(c, Q, n)
      ensures P == Q
    {
      SmallIsBinary(P);
      SmallIsBinary(Q);
      BitsInjective(P, Q, m, n);
    }
  }
}
