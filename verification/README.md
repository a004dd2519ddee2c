# cuinfer, verified

A Dafny model of the serving core of cuinfer: the continuous-batching scheduler with its paged,
prefix-caching KV cache manager, the engine loop around them, the token sampler, and the packing
and paged attention that connect the two to the device. `dafny verify dfyconfig.toml` checks it.

## What is proved, in short

**Everything the scheduler does is invisible.** `EngineCore.RunEngineCore` is the engine as it is
written: messages come in, `schedule` preempts, shares and admits, the model runs over one paged
pool, `update` delivers. For every sequence of inputs, each accepted request hears exactly what a
decoder that serves this request alone would say (`Decoder.SoloOutputs`), up to some point; it
hears all of it exactly if it is neither live nor aborted. The only hypotheses are that request
ids are unique, that the frontend has validated what it sends, and, if prefix caching is on, that
the chained block hash tells apart the prefixes that occur in the run: those of the prompts that
arrived, each followed by the tokens that were in fact sent. So what has been heard stays right
whatever collides later (`Guarantees.RightUntilCollision`). Nothing structural depends on the
hash: reference counts, exclusive writes, first come first served, progress, termination
and the output protocol hold for any hash function at all.

Tokens may be drawn at random. A `World` gives each request its own token after each context, two
equal prompts may go different ways, and `Draws.AnyDraws` shows that nothing is lost by fixing it
beforehand: no request is sampled twice at one length, so a run whose draws change from step to
step is the run of one `World`, and the lone decoder is the one that meets the same draws.

**The frontend hears an orderly story.** In every run the tokens of a live request are its prompt
and exactly what was sent; each output carries the reason that the arrival's own limits and the
end-of-sequence test give; a request that is through has heard one terminal output, its last;
nothing is said about a request once it is through or aborted. What a request may expect is
written in the fields it sent (`Promises`), not in terms of the engine's records.

**The cache forgets the oldest first.** Release appends to the free list, allocation takes from its
head, reuse takes out of its middle; over every run the list is sorted by the time since which its
blocks are unused. A lookup reuses the longest prefix that can be reused, and a prompt that comes
again finds all its full blocks as long as none has left the index.

**Nobody starves.** With `p` older live requests, a request is through after
`(p + 1) * max_model_len` steps, whatever arrives or is aborted meanwhile.

**The sampler is exact over the reals.** The row maximum is the leftmost one for any reduction
tree; two radix passes find the k-th largest BF16 number; the rejection loop ends, and what it
accepts is the first candidate in the top-p nucleus; each round accepts each position of the
nucleus, the maximum included, on a stretch as long as its weight.

**Layout and attention agree.** Packed fields do not overlap, no two tokens are stored in the same
slot, attention looks for each position where it was stored, the store kernel leaves behind exactly
the pool of the executor's step (`StoredBatch.StoredIsForward`), every token of a scheduled batch is
computed by one tile for each head, and lazy rescaling computes the softmax average over exactly
the causally visible keys.

## How it is organised

| part | files |
|---|---|
| values and counting | `Types`, `Arith`, `Bits` |
| cache manager, as functions | `BlockStore` (one block), `CachePool` (tables, lookup, publication), `BlockHashing` |
| what it keeps | `PoolInvariant` (counts, index, tables), `PoolContent` (what blocks hold), `Lookup` (what is found), `FreeOrder` (the free list as a queue), `Admission` |
| scheduler, as functions | `SchedulerModel` (one move), `ScheduleStep` (one call), `Lifecycle`, `UpdateStep` |
| what a step keeps and does | `StepTheorems`, `Greedy`, `StepContent`, `Executor`, `Lockstep` |
| whole runs | `Decoder`, `EngineModel`, `History`, `Promises`, `EngineRuns`, `Starvation`, `Protocol`, `Guarantees`, `Draws`, `ArrivalOrder`, `ReachableState`, `Eviction`, `EvictionRuns`, `Hypotheses` |
| the code's own form | classes `KVCacheManager`, `Scheduler` (with `SchedulerRounds`), `ModelRunner`, `EngineCore` |
| sampler | `Bf16`, `ArgMax`, `RadixTopK`, `RowOrder`, `TopP`, `Sampler`, `SampleLogits` |
| device side | `GraphBuckets`, `BatchBuffer`, `PagedAccess`, `StoredBatch`, `AttentionTiles`, `ScheduledTiles`, `OnlineSoftmax` |

The classes have the fields the C++ objects have: an array of block records with intrusive
`prev`/`next` links, a hash table, three lists of nodes that keep their identity while they are
spliced, an index from ids to nodes. Each of their methods is proved to compute the function of
the same name on the abstract value (`View()`), and the theorems are about those functions. A
cache entry is a term: its token and the entries it attended to (`Decoder.KV`). Two pools hold the
same terms exactly if every token saw the same context, which is all that is assumed about the
transformer.

Three details that are easy to overlook are modelled as the code has them. A step that had to
preempt admits nobody (`csrc/scheduler/scheduler.cpp:110`). An empty batch returns before anything
is uploaded, so the tokens of the step before stay in the download buffer
(`csrc/executor/model_runner.cpp:181-185`); `ModelRunner.Finish` is proved not to deliver them
again. And a block that is published while another live one holds its hash does not enter the
index (`csrc/scheduler/kv_cache_manager.cpp:158-176`); when the other one is evicted, its hash
leaves the index and lookups miss the published block. `Lookup.MatchExact` says when a prefix is
found, `Lookup.PublishedButMissed` shows one that is not.

## Model

| member | source | states |
|---|---|---|
| EngineCore.RunEngineCore | csrc/engine/engine_core.cpp:220-251 | the whole engine from start-up on: it refuses to start exactly if the pool cannot hold one request of maximal length; otherwise, for any hash, every add message that is taken in hears tokens drawn under its own parameters, each with the reason its own limits give, with one terminal output at the end exactly if it is neither live nor aborted; and if the hash tells the occurring prefixes apart, it hears what it would hear if it were served alone, all of it exactly if it is neither live nor aborted |
| EngineCore.Launch | csrc/engine/engine_core.cpp:110-140 | start-up fails exactly if num_blocks * block_size < max_model_len; otherwise the engine is empty and its pool blank |
| EngineCore.EngineCore.Run | csrc/engine/engine_core.cpp:87-108 | any sequence of rounds of messages has the effect of the run of the corresponding events; a shutdown ends it and leaves later messages unread |
| EngineCore.EngineCore.ProcessInputs | csrc/engine/engine_core.cpp:157-178 | messages take effect in order up to a shutdown, which is what the result reports |
| EngineCore.EventsReceived | csrc/engine/engine_core.cpp:157-178 | the events of every message that no shutdown precedes are part of the run, in one piece |
| EngineCore.AbortReceived | csrc/engine/engine_core.cpp:157-178 | so each id of an abort message is aborted |
| EngineCore.AddFrom | csrc/engine/engine_core.cpp:157-178 | nobody else is added: each accepted request was in an add message that no shutdown precedes |
| EngineCore.OneStepARound | csrc/engine/engine_core.cpp:87-108 | each round without a shutdown takes exactly one step, and a shutdown ends the run |
| EngineCore.EngineCore.Step | csrc/engine/engine_core.cpp:93-99 | schedule, run, finish and update together are one step of the engine model |
| EngineCore.AbortsApply | csrc/scheduler/scheduler.cpp:34-42 | an abort message with several ids is that many abort events one after the other |
| EngineRuns.EveryRunIsSolo | csrc/scheduler/scheduler.cpp:49-184 | refinement: in every run of adds, aborts and steps each output of a request carries the token drawn for it after the context of exactly its prompt and the tokens before, computed alone, with the reason its own limits give; it hears the whole lone run exactly if it is neither live nor aborted, a proper prefix otherwise; the hash has to tell apart only the prefixes of the prompts that arrived and the tokens that were sent in this very run |
| EngineRuns.StepKeepsFaithful | csrc/engine/engine_core.cpp:93-99 | one step keeps the agreement between cache, outputs and lone decoder, as long as what has been sent by its end lies in the set on which the hash is trusted |
| EngineRuns.RunKeepsFaithful | csrc/engine/engine_core.cpp:87-108 | so does every run |
| History.OutputKeepsLedger | csrc/scheduler/scheduler.cpp:162-184 | an output that continues or ends the story of one live request leaves what is claimed of every other request as it was |
| Draws.AnyDraws | csrc/executor/sampler.cpp:12-36 | a run in which every step draws its tokens afresh is the run of one sampler that is fixed beforehand |
| Draws.SampledIsPast | csrc/scheduler/scheduler.cpp:93-105 | a request that a step samples after n tokens has more than n tokens afterwards, or is gone |
| Draws.PastStays | csrc/scheduler/scheduler.cpp:162-191 | and it is never sampled at that length again, whatever is preempted, aborted or added |
| Draws.EveryDrawnRunIsSolo | csrc/executor/sampler.cpp:12-36 | so the output protocol holds for arbitrary draws, and so does the agreement with the lone decoder if the hash tells apart the prefixes that occur in the drawn run itself |
| Guarantees.EveryRequestIsServed | csrc/engine/protocol.h:69-71 | with p older live requests at its arrival, a request that is not aborted has heard its whole lone run, as its own fields determine it, after (p + 1) * max_model_len steps, if the hash tells the occurring prefixes apart |
| Guarantees.RightUntilCollision | csrc/engine/engine_core.cpp:87-108 | what a request has heard is a prefix of its lone run and stays so, if the hash tells apart the prefixes that have occurred by then, whatever occurs later |
| Guarantees.OutputProtocol | csrc/engine/protocol.h:69-71 | in every run and for any hash, in the fields of the arrival: output k carries a token drawn under its parameters after a context as long as its prompt and the k tokens before; it stops exactly at an end of sequence that is not to be ignored, and otherwise ends exactly at max_output_tokens or max_model_len; a request that is neither live nor aborted heard exactly one terminal output, its last, any other heard none; nobody hears more than max_output_tokens tokens (at least one) or more than fit max_model_len |
| Guarantees.NothingMissing | csrc/scheduler/scheduler.cpp:211-224 | a request that ignores the end of sequence and is through has heard exactly max(1, min(max_output_tokens, max_model_len - prompt)) tokens |
| Promises.EosEnds | csrc/scheduler/scheduler.cpp:211-215 | any other request ends with the first end-of-sequence token it hears |
| Promises.SoloIsAlone | csrc/scheduler/scheduler.cpp:23-32 | the lone decoder, started from the accepted record, does as promised from the arrival's own fields |
| Promises.AloneIsUnique | csrc/scheduler/scheduler.cpp:162-224 | there is no other way to keep that promise: two such runs agree as far as both go |
| Guarantees.EveryRequestEnds | csrc/engine/protocol.h:69-71 | for any hash, with p older live requests at its arrival, a request that is not aborted has heard exactly one terminal output, as its last, after (p + 1) * max_model_len steps |
| Guarantees.NothingFollows | csrc/scheduler/scheduler.cpp:34-42 | once an accepted request is in no queue, nothing more is ever sent about it |
| Guarantees.NothingAfterAbort | csrc/scheduler/scheduler.cpp:34-42 | what was sent about an accepted request before an abort is all that is ever sent |
| Guarantees.NothingAfterEnd | csrc/scheduler/scheduler.cpp:176-181 | what was sent up to a terminal output is all that is ever sent |
| Protocol.StepKeepsOrderly | csrc/engine/engine_core.cpp:93-99 | one step keeps the output protocol for every request, for any hash |
| Protocol.RunKeepsOrderly | csrc/engine/engine_core.cpp:87-108 | so does every run |
| Protocol.GoneIsSilent | csrc/scheduler/scheduler.cpp:162-191 | from any state on, a request that is gone stays gone and unheard |
| Hypotheses.HypothesesCanHold | csrc/engine/protocol.h:36-38 | the hypotheses of the run theorems hold together for a run in which one prompt starts with the other |
| Promises.SoloShape | csrc/scheduler/scheduler.cpp:162-184 | a lone run is terminal at its last output only, and its transcript is the prompt followed by the tokens sent |
| Guarantees.TokensAreHeard | csrc/scheduler/scheduler.cpp:167-175 | in every run and for any hash the tokens of each live request are its prompt followed by exactly what was sent, none dropped or repeated |
| Starvation.StepHelps | csrc/scheduler/scheduler.cpp:49-191 | every step strictly lowers, for every request that stays live, max_model_len per older request plus what the oldest has left |
| Starvation.AbortHelps | csrc/scheduler/scheduler.cpp:34-42 | an abort never raises it for anybody |
| Starvation.AddHelps | csrc/scheduler/scheduler.cpp:23-32 | an arrival leaves it as it is for everybody |
| Starvation.LiveMeansMeasure | csrc/scheduler/scheduler.cpp:49-191 | a request that is live after a run had more rounds left at its start than the run has steps |
| ArrivalOrder.FirstComeFirstServed | csrc/scheduler/scheduler.cpp:72-157 | at every point of every run, running then preempted then waiting requests are in the order in which they arrived |
| ReachableState.EveryReachableState | csrc/scheduler/kv_cache_manager.cpp:101-287 | in every reachable state counts equal table occurrences, the free list holds the unreferenced blocks once each, index and cached flags are inverse, published blocks are a prefix of each table with the hash computed from the seed, running requests hold just the blocks they need and have work left, queued ones hold none |
| ReachableState.EveryReachableCache | csrc/scheduler/kv_cache_manager.cpp:125-217 | in every reachable state each computed position of each running request is in the slot its table gives, with the entry of exactly the tokens up to it; and every published block, in a table or idle, carries the hash of a prefix that has occurred, of a prompt that arrived or of it and what was sent, and is full of the entries of that prefix's last block |
| ReachableState.EveryBatchEntry | csrc/scheduler/scheduler.cpp:93-105 | a batch entry continues its request where it stood, addresses it through its own table of just enough blocks, samples exactly if it computes the last token, under the request's parameters, and is marked as prefill exactly if it starts before the end of the prefill |
| StepTheorems.ExclusiveWrites | csrc/scheduler/scheduler.cpp:93-105 | no two tokens of a batch are written to the same slot, even under hash collisions |
| StepTheorems.WrittenBlock | csrc/scheduler/kv_cache_manager.cpp:232-263 | a block that is written is unpublished, has reference count 1 and occurs once in all tables |
| StepTheorems.ScheduleWithinLimits | csrc/scheduler/scheduler.cpp:52-157 | a batch respects the token budget, and running requests the sequence limit |
| StepTheorems.SecureOldest | csrc/scheduler/scheduler.cpp:61-87 | the preempt-and-retry loop always succeeds for the oldest running request, which is never preempted |
| StepTheorems.AloneFits | csrc/engine/engine_core.cpp:118-126 | when no other request holds blocks, any request of at most maximal length fits |
| StepTheorems.ScheduleServesOldest | csrc/scheduler/scheduler.cpp:49-160 | with live requests a step computes something, the oldest request first |
| Greedy.ScheduleIsGreedy | csrc/scheduler/scheduler.cpp:49-160 | each request of the batch is taken up where it stood and gets all that is left of it, only the last perhaps less, if the token budget is spent; either only the youngest were preempted and nobody was admitted, or nobody was preempted and the step ended because budget, batch or queues are exhausted or the first in the queue did not fit |
| Greedy.SecureIsMinimal | csrc/scheduler/scheduler.cpp:66-87 | nobody is preempted without need: before each preemption the share did not fit, and after the last one it does, or the request itself is gone |
| StepContent.ScheduleKeepsContent | csrc/scheduler/scheduler.cpp:49-160 | after scheduling each entry finds its whole context in the cache, and no block is published before the step that fills it has run |
| Executor.RunKeepsContent | csrc/executor/model_runner.cpp:60-92 | after the model run everything counted as computed is in the cache |
| Executor.SampledIsSolo | csrc/executor/model_runner.cpp:60-107 | a sampled token is the lone decoder's next token |
| EngineModel.StepDelivers | csrc/executor/model_runner.cpp:82-107 | a step yields one token for each request whose tokens are all computed, and no other |
| Lockstep.ParallelIsSequential | csrc/executor/model_runner.cpp:60-92 | a pool satisfies the equations that hold after all tokens of a batch were computed together exactly if it is the one that computing them one after the other leaves |
| Lockstep.OneSolution | csrc/executor/model_runner.cpp:60-92 | those equations have at most one solution |
| Admission.FailedAdmissionRestores | csrc/scheduler/scheduler.cpp:121-132 | a lookup that is given back restores tables, counts, tags and index, and permutes at most the free list |
| ScheduleStep.Schedule | csrc/scheduler/scheduler.cpp:49-160 | scheduling keeps the invariant, and the arrival order whatever is preempted and admitted |
| ScheduleStep.ServeRunning | csrc/scheduler/scheduler.cpp:54-108 | pass 1 extends the batch, keeps the invariant and the order, and covers all running requests unless it preempted or ran into a limit |
| ScheduleStep.AdmitQueued | csrc/scheduler/scheduler.cpp:110-157 | pass 2 keeps the invariant and the order through admissions and a failed one |
| ScheduleStep.SecureMoves | csrc/scheduler/scheduler.cpp:66-87 | securing slots only moves requests from the young end of the running list to the preempted queue, and changes nothing if it need not |
| SchedulerModel.PreemptKeepsBase | csrc/scheduler/scheduler.cpp:74-82 | preemption keeps counts, tables and order |
| SchedulerModel.EnterKeepsBase | csrc/scheduler/scheduler.cpp:116-155 | an admitted request joins behind all running ones with at least one token left to compute |
| UpdateStep.DeliverKeeps | csrc/scheduler/scheduler.cpp:167-181 | after each delivery exactly the requests still owed a token have everything computed |
| UpdateStep.AddKeepsInv | csrc/scheduler/scheduler.cpp:23-32 | a validated request with a fresh id keeps the invariant |
| UpdateStep.RemoveKeepsInv | csrc/scheduler/scheduler.cpp:186-191 | removing any id keeps the invariant |
| Lifecycle.RemoveOrder | csrc/scheduler/scheduler.cpp:186-209 | removal deletes exactly the request with that id from the arrival order, or nothing |
| Scheduler.Scheduler.Schedule | csrc/scheduler/scheduler.cpp:49-160 | the code's schedule computes the model's state and batch, and leaves the sequence of nodes over all three lists as it is |
| Scheduler.Scheduler.SecureSlots | csrc/scheduler/scheduler.cpp:66-87 | the inner loop ends with the slots allocated or the request itself preempted, as in the model |
| Scheduler.Scheduler.AdmitQueued | csrc/scheduler/scheduler.cpp:112-157 | the admission loop computes the model's state and batch |
| Scheduler.Scheduler.AddRequest | csrc/scheduler/scheduler.cpp:23-32 | a new node with the fields the arrival has goes to the end of the waiting list and into the index |
| Scheduler.Scheduler.AbortRequests | csrc/scheduler/scheduler.cpp:34-42 | each listed id is removed, unknown ones are ignored, and the index loses exactly those ids |
| Scheduler.Scheduler.RemoveRequest | csrc/scheduler/scheduler.cpp:186-209 | blocks are given back and the node leaves the index and the list that its status names |
| Scheduler.Scheduler.Update | csrc/scheduler/scheduler.cpp:162-184 | tokens are appended, reported and finished requests removed as in the model; each sampled token is announced with Stop exactly at an EOS that is not ignored, otherwise with Length exactly at a limit; the lookup by id never misses |
| UpdateStep.UpdateAnnounces | csrc/scheduler/scheduler.cpp:162-224 | a step announces each sampled token of each request, in order, with the reason the request's own fields give |
| Scheduler.Scheduler.HasRequests | csrc/scheduler/scheduler.cpp:44-47 | the index is empty exactly if no request is live |
| KVCacheManager.KVCacheManager.PushFree | csrc/scheduler/kv_cache_manager.cpp:45-59 | the links encode the free list with the block appended |
| KVCacheManager.KVCacheManager.PopFree | csrc/scheduler/kv_cache_manager.cpp:61-78 | the head of the list leaves it |
| KVCacheManager.KVCacheManager.RemoveFree | csrc/scheduler/kv_cache_manager.cpp:80-98 | the block leaves the middle of the list, all others keep their order |
| KVCacheManager.PushChained | csrc/scheduler/kv_cache_manager.cpp:45-59 | appending to a duplicate-free chain gives a duplicate-free chain |
| KVCacheManager.UnlinkChained | csrc/scheduler/kv_cache_manager.cpp:80-98 | unlinking position k of a chain gives the chain without it |
| KVCacheManager.KVCacheManager.CacheFullBlocks | csrc/scheduler/kv_cache_manager.cpp:125-156 | the full, computed and unpublished blocks are published under their chained hashes |
| KVCacheManager.KVCacheManager.ReusePrefix | csrc/scheduler/kv_cache_manager.cpp:178-217 | the longest prefix of full blocks that is in the index and leaves a token to compute is held and listed |
| KVCacheManager.KVCacheManager.AllocateSlots | csrc/scheduler/kv_cache_manager.cpp:232-263 | either all missing blocks are taken from the head of the free list, in order, and full ones published, or nothing changes |
| KVCacheManager.KVCacheManager.ReleaseBlocks | csrc/scheduler/kv_cache_manager.cpp:265-287 | full blocks are published, every table entry gives up one reference, the blocks that lose their last one are appended to the free list in table order, and the table is gone |
| BlockStore.TakeKeepsOk | csrc/scheduler/kv_cache_manager.cpp:101-114 | evicting and taking a block keeps counts, free list and index consistent |
| BlockStore.HoldKeepsOk | csrc/scheduler/kv_cache_manager.cpp:116-123 | so does sharing one |
| BlockStore.DropKeepsOk | csrc/scheduler/kv_cache_manager.cpp:276-284 | so does giving up a reference |
| BlockStore.InsertKeepsOk | csrc/scheduler/kv_cache_manager.cpp:158-176 | so does publication, also when the hash is taken by a live or an idle block |
| PoolInvariant.CacheFullKeepsOk | csrc/scheduler/kv_cache_manager.cpp:125-156 | the hash resumed from the last published block is the one computed from the seed, so the table stays a published prefix |
| PoolInvariant.MatchFinds | csrc/scheduler/kv_cache_manager.cpp:188-203 | the blocks a lookup finds are published under the hashes of the request's own first blocks |
| Lookup.MatchStops | csrc/scheduler/kv_cache_manager.cpp:188-203 | a lookup ends only where all shared blocks are found or the next hash is not in the index |
| Lookup.MatchExact | csrc/scheduler/kv_cache_manager.cpp:158-203 | a lookup finds the first m blocks exactly if each prefix of them has a block that is the cached one for its hash |
| Lookup.PublishedButMissed | csrc/scheduler/kv_cache_manager.cpp:101-176 | being published is not enough: of two blocks published under one hash the second is missed once the first is evicted |
| Lookup.ReuseLongest | csrc/scheduler/kv_cache_manager.cpp:178-217 | reuse takes the longest prefix of full blocks whose chained hashes are all in the index and that leaves a token over, and lists the blocks the index gives for it |
| Lookup.ReuseExact | csrc/scheduler/kv_cache_manager.cpp:178-217 | in terms of blocks: each prefix of the reused one has a cached block, and the next block would leave no token over or has none |
| Lookup.InsertReaches | csrc/scheduler/kv_cache_manager.cpp:158-176 | a published block enters the index under its hash exactly unless a referenced block holds it; nobody else's tag, count or place changes |
| Lookup.FullBlocksPublished | csrc/scheduler/kv_cache_manager.cpp:125-156 | every full, computed block of a table is published under the hash of the prefix it completes, and if it was not before, that hash is in the index |
| Lookup.AllocationPublishes | csrc/scheduler/kv_cache_manager.cpp:232-263 | a successful allocation publishes every block of the table that is full and computed by then |
| Lookup.ResubmittedReuses | csrc/scheduler/kv_cache_manager.cpp:178-287 | after a request has gone, its prompt reuses (|prompt| - 1) / block_size blocks, as long as none of its published blocks has lost its index entry |
| FreeOrder.ReleaseAppends | csrc/scheduler/kv_cache_manager.cpp:265-287 | release leaves the free list as it was and appends the blocks whose last reference it gives up, in table order |
| FreeOrder.GivenExactly | csrc/scheduler/kv_cache_manager.cpp:276-284 | which are exactly the blocks that were in use and no longer are |
| FreeOrder.AllocateTakesHead | csrc/scheduler/kv_cache_manager.cpp:232-263 | allocation takes the first blocks of the free list in order and leaves the rest; it fails exactly if there are too few |
| FreeOrder.ReuseLeavesRest | csrc/scheduler/kv_cache_manager.cpp:178-217 | reuse leaves the free list without the blocks it found, in the same order |
| Eviction.TraceOldest | csrc/scheduler/kv_cache_manager.cpp:45-114 | after any sequence of calls the free list is sorted by the time since which its blocks are unused |
| Eviction.TakenAreOldest | csrc/scheduler/kv_cache_manager.cpp:61-114 | so the blocks an allocation evicts have been unused at least as long as any that stays |
| Eviction.SinceIs | csrc/scheduler/kv_cache_manager.cpp:45-59 | that time is the call after which the block has been unused without interruption |
| EvictionRuns.EveryRunEvictsOldest | csrc/scheduler/scheduler.cpp:49-191 | in every run of the engine the pool changes by such calls only, so it evicts the oldest blocks first |
| PoolInvariant.ReuseKeepsOk | csrc/scheduler/kv_cache_manager.cpp:178-217 | reuse keeps the pool consistent and leaves every other table and its tags alone |
| PoolInvariant.AllocateKeepsOk | csrc/scheduler/kv_cache_manager.cpp:232-263 | so does allocation, which leaves just enough blocks |
| PoolInvariant.ReleaseKeepsOk | csrc/scheduler/kv_cache_manager.cpp:265-287 | so does release |
| PoolContent.InsertKeepsCache | csrc/scheduler/kv_cache_manager.cpp:158-176 | tagging a filled block keeps every published block truthful; the one place that needs the hash to be injective |
| PoolContent.ReuseContent | csrc/scheduler/kv_cache_manager.cpp:178-217 | whatever a lookup hands out holds the request's own prefix |
| BlockHashing.MixUndone | csrc/scheduler/kv_cache_manager.cpp:17-22 | the 64-bit mixing function is inverted by an explicit function |
| BlockHashing.ComputeBlockHash | csrc/scheduler/kv_cache_manager.cpp:24-31 | the loop folds the mixing over the block's tokens |
| BlockHashing.OneChangeShows | csrc/scheduler/kv_cache_manager.cpp:24-31 | the same block after different parents, or blocks differing in just one token after the same parent, never share a hash |
| BlockHashing.HashResumes | csrc/scheduler/kv_cache_manager.cpp:24-31 | tokens are folded front to back: a hash can be resumed anywhere |
| BlockHashing.OneTokenHash | csrc/scheduler/kv_cache_manager.cpp:17-31 | one token goes in as its low 32 bits and is mixed by the shifts and factors of splitmix64 |
| BlockHashing.OneTokenShows | csrc/scheduler/kv_cache_manager.cpp:125-156 | with this hash as the block hash, two sequences that differ in one token have different chained hashes over any number of full blocks that include it |
| ModelRunner.ModelRunner.RunModel | csrc/executor/model_runner.cpp:60-92 | the pool is written as in the model, and exactly the sampling requests are in flight, in batch order |
| ModelRunner.ModelRunner.Finish | csrc/executor/model_runner.cpp:94-107 | each request in flight gets its own token, none is in flight afterwards, and stale tokens of an earlier step are never delivered |
| ArgMax.ReduceIsLeftmostMaximum | csrc/ops/sampler.cu:31-38 | any reduction tree over the row and its padding yields the leftmost maximum, even if the row is as low as the padding |
| SampleLogits.RowMaximum | csrc/ops/sampler.cu:157-175 | tile-wise reduction finds the leftmost maximum |
| Bf16.KeyOrder | csrc/ops/sampler.cu:40-44 | keys sort like BF16 values, and only the two zeros share a key |
| Bf16.NumberIs | csrc/ops/sampler.cu:247-252 | the values are those of BF16: exponent e and fraction f stand for (1 + f / 128) * 2^(e - 127), either sign |
| Bf16.OneIs | csrc/ops/sampler.cu:247-252 | so 0x3f80 is the number one |
| Bf16.DecodeInverts | csrc/ops/sampler.cu:247-249 | decoding inverts the key up to the sign of zero |
| RadixTopK.SelectDigit | csrc/ops/sampler.cu:57-71 | the digit in which the k-th entry from the top falls, and its rank within it |
| RadixTopK.RadixExact | csrc/ops/sampler.cu:224-247 | fewer than k keys are above the key of the two digits, at least k at or above it |
| RadixTopK.Cutoff | csrc/ops/sampler.cu:214-250 | the cutoff is exactly the k-th largest number of the row; ties are kept |
| RowOrder.OrderOnce | csrc/ops/sampler.cu:255-283 | the threads' strided walks together visit every position exactly once |
| RowOrder.ThreadReads | csrc/ops/sampler.cu:255-283 | thread t reads, from front to end, exactly the positions x with x / 4 % threads == t |
| TopP.NucleusIs | csrc/ops/sampler.cu:284-386 | the nucleus is everything above some bound, reaches the target mass, and would not without its smallest weights |
| TopP.ScanInterval | csrc/ops/sampler.cu:311-349 | inversion selects a position exactly on a stretch as long as its weight |
| Sampler.Candidate | csrc/ops/sampler.cu:304-352 | the two-level search finds what a single pass over the cumulative weights finds, the row maximum if that is nothing |
| Sampler.DrawnInProportion | csrc/ops/sampler.cu:304-352 | a draw below the total selects each weight above the bound, the row maximum included, exactly on an interval of its own length |
| Sampler.NucleusAboveLow | csrc/ops/sampler.cu:292-386 | the whole nucleus stays above the bracket's low end |
| Sampler.RejectShrinks | csrc/ops/sampler.cu:359-385 | a rejection keeps mass(>high) < target <= mass(>low) and strictly shrinks the set of weights above low |
| Sampler.RoundAccepts | csrc/ops/sampler.cu:304-376 | whatever the bracket, a round accepts each position of the nucleus, the maximum included, exactly on a stretch as long as its weight, so rejection keeps the proportions |
| Sampler.AcceptedInNucleus | csrc/ops/sampler.cu:359-376 | the first accepted candidate lies in the nucleus |
| Sampler.SampleRow | csrc/ops/sampler.cu:292-386 | the loop ends, for any draws, with the first candidate that lies in the nucleus, each drawn from what the bracket has left; at top_p = 1 it is the first candidate; its weight is positive |
| SampleLogits.SoftmaxIs | csrc/ops/sampler.cu:260-265 | a weight is at most one, grows with its logit, and is positive exactly if the logit makes the cutoff |
| SampleLogits.SoftmaxFormula | csrc/ops/sampler.cu:252-265 | the weight of a logit that makes the cutoff is exp((logit - maximum) / temperature) |
| SampleLogits.WarmerIsFlatter | csrc/ops/sampler.cu:252-265 | a higher temperature gives no logit less weight |
| SampleLogits.Sample | csrc/ops/sampler.cu:187-388 | greedy rows yield the leftmost maximum; others the token that the draws select from the weights exp((logit - maximum) / temperature) of the k largest logits, which lies in their nucleus |
| GraphBuckets.CudaGraphRunner.constructor | csrc/executor/cuda_graph_runner.cpp:11-22 | sizes start at one, end at the maximum and never more than double |
| GraphBuckets.CudaGraphRunner.BucketSize | csrc/executor/cuda_graph_runner.cpp:41-49 | the smallest bucket that holds n tokens: n <= bucket < 2n, at most the maximum |
| BatchBuffer.AlignUpIs | csrc/common/util.h:10-15 | the mask yields the least multiple of the alignment that is not below the offset |
| BatchBuffer.CreateLayout | csrc/executor/batch_buffer.cpp:17-55 | every field has its own aligned stretch inside the buffer |
| BatchBuffer.StrideIsLeast | csrc/executor/batch_buffer.cpp:34-34 | the table is just wide enough for a request of maximal length |
| BatchBuffer.BatchBuffer.Upload | csrc/executor/batch_buffer.cpp:57-168 | the device gets every packed field, padded with zeros and slots of -1, the rows of the block table at the device's stride, and the counts and maxima; the fields keep their regions of the buffer |
| BatchBuffer.BatchBuffer.constructor | csrc/executor/batch_buffer.cpp:27-55 | each field has the size of its own aligned region of the buffer |
| BatchBuffer.PackedAt | csrc/executor/batch_buffer.cpp:90-98 | token j of request i is packed at the prefix sum plus j, with its own position and slot |
| BatchBuffer.StartsAt | csrc/executor/batch_buffer.cpp:100-104 | query starts are the prefix sums, sequence lengths end with the request's last token |
| BatchBuffer.SampledAt | csrc/executor/batch_buffer.cpp:110-114 | the r-th sampling request has its last token's index and its parameters at row r |
| PagedAccess.ReadsWhatIsWritten | csrc/ops/paged_attention.cu:94-101 | attention's shift and mask give the packed slot, inside the request's own table |
| PagedAccess.StoredWhereRead | csrc/executor/batch_buffer.cpp:93-98 | each token of a batch is stored where attention looks for its position |
| PagedAccess.ScheduledSlots | csrc/executor/batch_buffer.cpp:93-98 | the packed slots of a scheduled batch are pairwise distinct and inside the pool |
| PagedAccess.ScheduledFits | csrc/executor/batch_buffer.cpp:27-55 | every scheduled batch fits the buffer |
| PagedAccess.UpdateCache | csrc/ops/unified_kv_cache_update.cu:20-47 | each entry is stored at its slot, negative slots are skipped |
| PagedAccess.AnyOrder | csrc/ops/unified_kv_cache_update.cu:20-47 | with exclusive slots the order of the thread blocks does not matter |
| PagedAccess.PaddingWritesNothing | csrc/ops/unified_kv_cache_update.cu:30-33 | padding a batch writes nothing |
| StoredBatch.DeviceReadIs | csrc/ops/paged_attention.cu:94-101 | reading positions through an uploaded table row is reading them through the request's blocks |
| StoredBatch.StoredIsForward | csrc/ops/unified_kv_cache_update.cu:20-47 | if every entry is computed from its packed token and from what attention reads through the uploaded table, the pool that the store kernel leaves behind, padding included, is exactly the one of the executor's step |
| AttentionTiles.FindRequest | csrc/ops/paged_attention.cu:175-190 | the binary search finds the request that owns the tile |
| AttentionTiles.OneOwner | csrc/ops/paged_attention.cu:175-190 | which is unique |
| AttentionTiles.TilesPartition | csrc/ops/paged_attention.cu:190-197 | every query row of every request is computed by exactly one tile of the grid |
| AttentionTiles.OneEmptyTile | csrc/ops/paged_attention.cu:175-177 | a request has at most one tile without rows |
| AttentionTiles.RowSeesItself | csrc/ops/paged_attention.cu:225-225 | a tile loads every key up to each of its rows' own position |
| AttentionTiles.UnmaskedIsVisible | csrc/ops/paged_attention.cu:261-273 | where masking is skipped every key of the tile is visible to every row of the warp |
| ScheduledTiles.BatchHasQueryStarts | csrc/executor/batch_buffer.cpp:83-100 | the packed query starts of every non-empty batch begin at zero and strictly grow |
| ScheduledTiles.GridSize | csrc/ops/paged_attention.cu:400-400 | the launched grid ends with the last tile of the last request |
| ScheduledTiles.TokenComputedOnce | csrc/ops/paged_attention.cu:175-222 | every token of a batch is computed, for each head, by exactly one tile of the grid, at its own position, with all keys up to it and none outside its request's blocks |
| ScheduledTiles.ScheduledTokenComputedOnce | csrc/ops/paged_attention.cu:175-197 | so is every token that the scheduler hands out, within the blocks of its request's own table |
| OnlineSoftmax.ShiftMass | csrc/ops/paged_attention.cu:286-303 | raising the reference exponent scales both running sums by the same power |
| OnlineSoftmax.AttentionIsAverage | csrc/ops/paged_attention.cu:286-375 | the quotient of the two running sums is that softmax average |
| OnlineSoftmax.AttendRow | csrc/ops/paged_attention.cu:221-375 | for any scores and rescalings the result is the sum, over exactly the visible keys j, of value[j] / sum over k of exp2(scale * (score[k] - score[j])), and no power is taken of an exponent above 8 |

## Left out

- ZeroMQ, msgpack, the Python frontend, HTTP and process management: only the order in which messages reach the scheduler is kept; malformed frames raise before any state changes and are not modelled.
- The incremental detokenizer: it depends on an external tokenizer.
- The transformer: a cache entry is a term of its token and context; embedding, norm, rope, projections, MoE layers, checkpoint loading, CUDA resources and graph capture are not part of this model.
- Floating point: rounding, overflow and NaN; the sampler and the softmax are over exact reals, infinities are treated as the numbers next to the largest finite ones, and exp and exp2 are any functions with the laws they need (`ExpLike`, `Exp2Like`).
- Random numbers: the draws of `Sampler.SampleRow` are arbitrary reals and the tokens of a run arbitrary choices, one for each request and length (`Draws.AnyDraws`), so the contracts say what holds for all of them; how the generator spreads its draws, and probabilities beyond the lengths of the stretches, are not modelled.
- Warps, shared memory and atomics: threads of a block are run one after the other; that order does not matter is proved where it could (`ArgMax.ReduceIsLeftmostMaximum`, `PagedAccess.AnyOrder`, `Lockstep.ParallelIsSequential`).
- Machine integers: counts are unbounded, except for the 64-bit words of the block hash and of `align_up`; that 32-bit offsets suffice is not shown.
- Quality of the block hash: that the chained hash separates the prefixes of a run is a hypothesis of the content theorems; `BlockHashing.OneTokenShows` says what holds without it. The cache manager takes the hash function as part of its configuration.
- Prefix cache counters and logging.
- The number of blocks is a configuration value; measuring free device memory is not modelled.
- The block table's unused rows on the device, and the aliasing of sampled tokens with the token id field after they have been read.
- Copies instead of references: the manager's methods take a request as a value, of which only the id, the tokens and the computed count are read; the K and V vectors of a slot are one value.
- Waiting for input when no request is live: a round is whatever one call of process_inputs receives.
