/** The engine's plain values: configuration, requests, and what passes between the
    scheduler, the model runner and the frontend. */
module Types {

  type pos = n: int | n > 0 witness 1

  type Token = int
  type Id = string
  type Hash = nat

  /** Extends the hash of a prefix by the tokens of one more block. */
  type BlockHash = (Hash, seq<Token>) -> Hash

  const HASH_SEED: Hash := 0x9e3779b97f4a7c15

  datatype Config = Config(
    blockSize: pos,
    numBlocks: nat,
    prefixCaching: bool,
    blockHash: BlockHash,
    maxSeqs: pos,
    maxScheduledTokens: pos,
    maxModelLen: pos)

  datatype SampleParams = SampleParams(temperature: real, topK: int, topP: real)

  datatype Status = Waiting | Running | Preempted

  datatype Request = Request(
    id: Id,
    status: Status,
    numPrompt: nat,
    numPrefill: nat,
    numComputed: nat,
    maxOutput: int,
    ignoreEos: bool,
    tokens: seq<Token>,
    params: SampleParams)

  /** One request's share of a step's batch. */
  datatype Scheduled = Scheduled(
    id: Id,
    isPrefill: bool,
    needsSampling: bool,
    offset: nat,
    tokens: seq<Token>,
    blocks: seq<nat>,
    params: SampleParams)

  datatype Sampled = Sampled(id: Id, token: Token, eos: bool)

  datatype Reason = GoOn | Stop | Length

  datatype Output = Output(id: Id, token: Token, reason: Reason)
}
