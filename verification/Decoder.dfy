/** What the cache is for: the KV entries of a token sequence, and the decoder that
    serves one request alone. */
module Decoder {
  import opened Types

  /** A cache entry is determined by its token and by the entries it attended to; nothing
      more is assumed about the transformer.  Its position is the length of the context. */
  datatype KV = Blank | Entry(context: seq<KV>, token: Token)

  /** The entries of a sequence computed by itself, front to back. */
  function Solo(tokens: seq<Token>): (r: seq<KV>)
    ensures |r| == |tokens|
  {
    if tokens == [] then []
    else
      var context := Solo(tokens[..|tokens| - 1]);
      context + [Entry(context, tokens[|tokens| - 1])]
  }

  lemma {:induction false} SoloPrefix(tokens: seq<Token>, n: nat)
    requires n <= |tokens|
    ensures Solo(tokens)[..n] == Solo(tokens[..n])
  {
    if n < |tokens| {
      var front := tokens[..|tokens| - 1];
      SoloPrefix(front, n);
      assert front[..n] == tokens[..n];
      assert Solo(tokens)[..n] == Solo(front)[..n];
    } else {
      assert tokens[..n] == tokens;
    }
  }

  lemma SoloAt(tokens: seq<Token>, p: nat)
    requires p < |tokens|
    ensures Solo(tokens)[p] == Entry(Solo(tokens[..p]), tokens[p])
  {
    SoloPrefix(tokens, p + 1);
    var front := tokens[..p + 1];
    assert front[..p] == tokens[..p];
    assert Solo(tokens)[p] == Solo(tokens)[..p + 1][p];
  }

  /** What is drawn for a request after a context, and the end-of-sequence test.  A request
      is never sampled twice at one length, so a function of the request loses no draws:
      `next` may pick any token whatever for each request and length. */
  datatype World = World(next: (Id, seq<KV>, SampleParams) -> Token, isEos: Token -> bool)

  /** When a request is over; `r.tokens` already ends with the newest token. */
  function FinishReason(c: Config, r: Request, eos: bool): Reason {
    if !r.ignoreEos && eos then Stop
    else if |r.tokens| - r.numPrompt >= r.maxOutput || |r.tokens| >= c.maxModelLen then Length
    else GoOn
  }

  function Grow(r: Request, token: Token): Request {
    r.(tokens := r.tokens + [token])
  }

  function NextToken(w: World, r: Request): Token {
    w.next(r.id, Solo(r.tokens), r.params)
  }

  /** Everything the frontend hears about r when it is decoded alone from here on. */
  function SoloOutputs(c: Config, w: World, r: Request): (outs: seq<Output>)
    ensures outs != []
    decreases c.maxModelLen - |r.tokens|
  {
    var t := NextToken(w, r);
    var r' := Grow(r, t);
    var reason := FinishReason(c, r', w.isEos(t));
    [Output(r.id, t, reason)] + if reason == GoOn then SoloOutputs(c, w, r') else []
  }

  /** The token sequence r ends with when it is decoded alone. */
  function SoloTranscript(c: Config, w: World, r: Request): (tokens: seq<Token>)
    ensures r.tokens < tokens
    decreases c.maxModelLen - |r.tokens|
  {
    var t := NextToken(w, r);
    var r' := Grow(r, t);
    if FinishReason(c, r', w.isEos(t)) == GoOn then SoloTranscript(c, w, r') else r'.tokens
  }
}
