# gogguf: verified models

gogguf serves GGUF language models from Go, with a CUDA backend behind it. This project models the parts of
it where a mistake would not crash but silently give wrong tokens, wrong numbers or unfair service, and proves
what those parts promise.

| files | what they model |
|---|---|
| `ConversationCache.dfy`, `SessionServer.dfy` | one KV cache shared by many conversations: incremental prefill, rollback, replay, cached logits; the server that hands the cache around |
| `DeviceMemory.dfy`, `LruOrder.dfy`, `CapturedGraphs.dfy`, `GraphReplay.dfy`, `WeightCache.dfy` | the device weight cache, its LRU order, pool growth, captured graphs that embed raw pointers and what replaying them computes, and memory that reuses addresses |
| `LayerSplit.dfy`, `LayerRouting.dfy` | layers dealt out to several devices, the hidden state that follows them by peer copy or over the host |
| `Offsets.dfy`, `RealSums.dfy`, `Softmax.dfy`, `FlashAttention.dfy`, `AttentionKernels.dfy`, `CausalBatch.dfy`, `DeviceAttention.dfy` | the fused attention kernel and the separate score, cap, softmax and value kernels against two-pass softmax attention, and the three ways a causal batch is computed |
| `Utf8.dfy`, `ByteAlphabet.dfy`, `MergeLoop.dfy`, `SpecialTokens.dfy`, `Pretokenizer.dfy`, `Tokenizer.dfy` | the byte-level BPE tokenizer from text to ids and back |
| `QuantBits.dfy`, `QuantBlocks.dfy`, `DeviceQuant.dfy`, `QuantKernels.dfy` | K-quant blocks: reference dequantisers, expansion on upload, and the kernels that read the expanded layout |
| `RateLimiter.dfy` | the token-bucket rate limiter |
| `Wrappers.dfy` | optional values and results |

## Main results

- **The cache is invisible.** In every run of lookups, chats, completions and embeddings over any number of
  sessions, with Forwards failing at will, every answer is the one the request would have had alone on an empty
  cache, or its own Forward failed (`SessionServer.Serve`, `ConversationCache.Transparent`). That answer is
  said without the loop: every token is the sampler's choice behind those before it, and the end is where a budget of
  `maxTokens` or 128, the sampler, the callback or a stop sequence puts it (`ConversationCache.FreshRunIs`). Every Forward starts
  at the length of the cache, and an answer costs one Forward per new prompt, per token and per replay. Only a failing
  replay can break ownership, and `EnsureKV` and `Rollback` say exactly when it does.
- **No pointer held by a fused operation dies.** Whatever mixture of hits, misses, dimension changes, memory
  shortage and cap enforcement happens while up to eight weights are ensured, all pointers obtained are live and
  hold their own weight at launch, if and only if no key is asked for in two shapes
  (`WeightCache.Backend.EnsureAll`, `WeightCache.Backend.Fused`). No graph table
  ever holds a graph with a dead or reused pointer; a replayed graph has every weight in its place and computes what the
  operation is for (`WeightCache.KeyOfFits`, `GraphReplay.ResidualComputes`); and no block of device memory is lost, in any run, although
  addresses are reused (`WeightCache.Run`, `WeightCache.Backend.FindOrCapture`).
- **Many devices are one.** For every split, every rounding and every pattern of peer failures, a run of tokens
  gives the outputs and the caches of a single device; the hidden state moves once less per token than there are
  devices with layers; a failed pair is never tried again (`LayerRouting.MultiBackend.Tokens`).
- **The kernels are softmax attention.** For every head, query and length the fused kernel's output equals the reference
  (`FlashAttention.AttnFlash`), and so does what the separate kernels leave, with the score cap they apply
  (`DeviceAttention.HeadByKernels`). Grid chunks, blocks in any order, single queries and the CPU loop all solve
  the same batch (`DeviceAttention.AttentionScoresKVBatch`, `CausalBatch.AttentionScoresBatchCausalInto`).
- **Encoding round-trips.** What `Decode` makes of any successful `Encode` is the text after conversion to runes
  and back, if the special tokens in it are plain ASCII, and a valid UTF-8 text with valid special tokens comes back
  unchanged if and only if they are; a vocabulary closed under merging never fails (`Tokenizer.Tokenizer.RoundTrip`). The hand-written pretokenizer is the published Qwen2 pattern under a backtracking
  matcher, but for lone NUL characters (`Pretokenizer.NextPiece`).
- **Repacking keeps every weight.** Upload plus kernel computes the row products of the reference weights for
  Q2_K, Q3_K, Q4_K, Q5_K and Q6_K (`QuantKernels.BothWays`); those weights are given in quotients and remainders of the
  stored bytes, and every bit field of host and device is proved to be such a number (`QuantBlocks.BlockAt`).
- **The limiter limits.** Without sweeping, no client gets more than its burst plus the rate in any interval, whatever
  the order of clock readings (`RateLimiter.AdmissionBound`). Sweeping goes unnoticed in exactly the runs where every
  swept bucket that is asked for again would be full (`RateLimiter.UnnoticedExactly`), and under any limit the runs whose
  readings go back by at most d, never before the limiter was made, all keep the bound if and only if d is at most 270 seconds
  (`RateLimiter.SkewExactly`).

## Where the code falls short of what one might expect

- A replay that fails in `LoadKVCache` leaves `kvConv` on its old owner (`pkg/server/server.go:210-212`). The owner
  still matches the cache exactly if it was nil or the failing Forward happened to leave its tokens
  (`SessionServer.Server.EnsureKV`). `SessionServer.MisledByFailedReplay` runs two sessions into a wrong answer that way.
- `Rollback` after a prompt that replaced the history brings back the old number of tokens but a mixture of
  prompt and stale cells. `ConversationCache.RolledBackRestores` says exactly when the old tokens return.
- The fused batch ignores the attention score cap, which the single-query path applies; callers with a cap do not
  use the batch. `DeviceAttention.AttentionScoresKVBatch` says exactly when the batch is fused, and
  `DeviceAttention.FusedMissesCap` gives, for any cap, a query whose fused answer is not the capped one.
- The single-query path does not compare the width of the cache's rows with its own dimensions, as the batch does. In a
  cache of wider or narrower rows it reads at its own stride; as long as that stays inside the cache, which is all that the
  model asks, its answer is attention over what lies there.
- The fused kernel multiplies row number and head size in 32 bits, and nothing in the launcher checks the product. A launch
  has all rows in place if and only if its last row starts below 2^32 cells; otherwise the last cell is never written and
  the download brings home what memory held (`DeviceAttention.LaunchFlash`, `DeviceAttention.KvAttentionBatch`). Its
  position counter passes lengths up to 2^32 - 256 and runs forever beyond them (`FlashAttention.ChunkLoopEnds`); a C int
  does not reach that far. The quantised kernels form their block number in 32 bits as well, and find all blocks of a matrix
  exactly if there are at most 2^32 (`QuantKernels.AllBlocksFound`).
- Two weights of one fused operation under one key but with different dimensions free a pointer already
  handed out (`WeightCache.Backend.TwoShapes`).
- A NUL followed by symbols or newlines stays alone where the pattern would take the run
  (`Pretokenizer.LoneNulExists`). The pattern for other vocabularies at `pkg/tokenizer/tokenizer.go:12` has no look-ahead,
  and to Go's regexp its `\s` is ASCII; `Pretokenizer.PatternsAgree` says exactly where the two take the same, and a no-break
  space in front of symbols is one of the places where they do not (`Pretokenizer.NoBreakSpaceDiffers`).
- Special tokens with characters outside 0x21..0x7E do not decode to themselves
  (`ByteAlphabet.DecodesToItself`).
- Clock readings of the limiter are taken before its lock. If one reaches it more than 270 seconds behind another, a sweep
  can hand a client a full bucket too early (`RateLimiter.DebtForgottenBreaks`, and the limiter itself in
  `RateLimiter.LateThenEarly`).

## Model

| member | source | states |
|---|---|---|
| ConversationCache.Model.Forward | pkg/runtime/conversation.go:165-173 | a Forward extends the cache by its tokens and returns the logits of the whole cache, or fails and leaves anything; whether it started at the cache length is remembered |
| ConversationCache.DecodeLocal | pkg/runtime/session.go:198-231 | the outcome of decoding depends on the model only through the first logits and those of extensions of what the cache held |
| ConversationCache.DecodeBounds | pkg/runtime/session.go:198-231 | a finished request kept its token budget and the context length, and stops for length only with the whole budget used; the only other end is a position overflow |
| ConversationCache.DecodeIs | pkg/runtime/session.go:198-231 | the loop ends with these tokens and this reason exactly if each was picked behind those before it, all but the last went on, and the reason fits: "length" with as many tokens as asked for, or 128; "stop" at a negative or end token, a refused token or a stop sequence |
| ConversationCache.FreshRunIs | pkg/runtime/conversation.go:116-189 | a request alone is refused for a bad encoding, a long or an empty prompt, and otherwise answered in that way from the logits of its prompt |
| ConversationCache.GenerationSession.DecodeStepWith | pkg/runtime/session.go:55-93 | one step picks from the logits of everything in the cache, ends on a negative or end token, refuses positions beyond the context, and otherwise issues one Forward that extends history, cache and logits together or fails |
| ConversationCache.GenerationSession.GenerateSteps | pkg/runtime/session.go:198-231 | the loop gives the reference decode over what the cache held, in its own words and in those of DecodeIs, one Forward per token, or a Forward failed |
| ConversationCache.RolledBackRestores | pkg/runtime/conversation.go:93-114 | rolling back to the old count restores the old tokens if and only if prompt and tokens agree as far as both go; the count is always restored |
| ConversationCache.ResliceRollsBack | pkg/runtime/conversation.go:93-100 | reslicing the kept backing array exposes exactly the prompt and the stale cells behind it |
| ConversationCache.Conversation.StoreLogits | pkg/runtime/conversation.go:66-83 | nil and empty logits are both kept as none |
| ConversationCache.Conversation.Reset | pkg/runtime/conversation.go:25-29 | history and cache are empty, and the conversation is coherent whatever it was before |
| ConversationCache.Conversation.LoadKVCache | pkg/runtime/conversation.go:32-49 | cache and logits become those of the kept tokens; it fails exactly if there are tokens and the Forward fails |
| ConversationCache.Conversation.Rollback | pkg/runtime/conversation.go:93-114 | the first tokenLen cells of the backing array become history, cache and logits; coherence survives exactly if nothing was replayed, the replay succeeded or it left an empty cache |
| ConversationCache.Conversation.PrefixEqual | pkg/runtime/conversation.go:195-207 | true exactly if the cached tokens are a prefix of the prompt |
| ConversationCache.Conversation.Prefill | pkg/runtime/conversation.go:161-175 | the new tokens join whatever the cache holds, starting at the kept count; a failed Forward replays the kept tokens |
| ConversationCache.Conversation.StartGeneration | pkg/runtime/conversation.go:143-189 | from a coherent conversation, success means history, cache and logits of the full prompt however much was reused; an error is the reference error, a failed Forward, or missing logits of a model that has none; over a foreign cache the new tokens join what is there |
| ConversationCache.Conversation.Commit | pkg/runtime/conversation.go:61-64 | the generated tokens and the last logits join the history |
| ConversationCache.Conversation.Generate | pkg/runtime/conversation.go:116-130 | a request is transparent to its own cache and keeps the conversation coherent unless a replay fails; it costs one Forward for new prompt tokens and one per generated token; a failed request leaves the old history, none, or the reslice mixture; over a foreign cache the answer is that cache's |
| SessionServer.Server.ConversationForSession | pkg/server/server.go:169-202 | one conversation per session id, a fresh one for new and empty ids unless the engine gives no context, distinct ids with distinct conversations and backing arrays |
| SessionServer.Server.EnsureKV | pkg/server/server.go:205-216 | success makes the conversation the coherent owner; failure keeps the old owner, whose ownership holds exactly if it was nil or the failed Forward left its tokens |
| SessionServer.Server.Infer | pkg/server/chat_completions.go:317-346 | the critical section of a chat request is transparent, touches no other conversation and keeps the cache owned unless a replay fails |
| SessionServer.Server.Embed | pkg/server/embeddings.go:65-68 | embeddings disown the cache, so what they leave in it cannot be mistaken for a conversation |
| SessionServer.Step | pkg/server/completions.go:121-155 | any step of any client keeps ownership unless a replay fails, and its answer is the reference answer |
| SessionServer.Serve | pkg/server/server.go:179-216 | whole runs: all answers are reference answers, every Forward starts at the cache length, the cache is owned by whoever kvConv names |
| SessionServer.MisledByFailedReplay | pkg/server/server.go:210-212 | a run of two sessions in which a failed replay makes a later answer wrong although no Forward of its own failed |
| DeviceMemory.Memory.Alloc | pkg/device/cuda/driver.c:1486-1506 | an allocation may fail and may reuse any address that is not live |
| LruOrder.WithoutKeeps | pkg/device/cuda/weight_cache.go:169-178 | taking a key out keeps the list free of duplicates, drops exactly that key and its bytes |
| LruOrder.TrackKeeps | pkg/device/cuda/weight_cache.go:142-157 | recording an upload keeps list, index and byte counter in agreement |
| LruOrder.LastGoes | pkg/device/cuda/weight_cache.go:238-252 | removing the tail leaves the rest of the order as it was |
| LruOrder.EvictedThenUsed | pkg/device/cuda/weight_cache.go:265-285 | evicting for an upload and then tracking it is one use with one eviction from the tail |
| LruOrder.UsedStayRecent | pkg/device/cuda/weight_cache.go:28-33 | using one more key keeps up to eight used keys among the most recent ones, through any tail eviction that stops at eight |
| CapturedGraphs.AttnGraphsStay | pkg/device/cuda/driver.c:426-443 | attention graphs notice nothing outside the attention pool and the KV cache |
| CapturedGraphs.GraphsStay | pkg/device/cuda/driver.c:3869-3881 | no graph notices new blocks or the end of temporary ones |
| CapturedGraphs.Reinstalled | pkg/device/cuda/driver.c:1473-1531 | swapping a pool buffer keeps all buffers live and touches neither weights nor attention buffers |
| CapturedGraphs.MemberCurrent | pkg/device/cuda/driver.c:3248-3256 | a table of current graphs has only current graphs to find |
| GraphReplay.MatmulComputes | pkg/device/cuda/driver.c:3258-3290 | a replayed matrix graph leaves the product of its matrix with the vector it was given |
| GraphReplay.FfnComputes | pkg/device/cuda/driver.c:1751-1791 | a replayed feed-forward graph leaves down times (activation of gate times x, times up times x), each weight in its place |
| GraphReplay.ResidualComputes | pkg/device/cuda/driver.c:1810-1889 | a replayed layer graph leaves the residual after projection, optional post norms, norm and gated feed-forward, resident or from the host |
| GraphReplay.LogitsComputes | pkg/device/cuda/driver.c:2784-2799 | a replayed head graph leaves head times the normed hidden state |
| GraphReplay.QkvComputes | pkg/device/cuda/driver.c:2945-3007 | a replayed projection graph leaves rotated query and key, with their head norms if there are any, and the value of the normed or given state |
| GraphReplay.AttentionComputes | pkg/device/cuda/driver.c:650-700 | a replayed attention graph mixes the layer's values by the softmax of the scores of its keys |
| WeightCache.Backend.TouchWeight | pkg/device/cuda/weight_cache.go:160-166 | a hit moves to the front and nothing else changes |
| WeightCache.Backend.UntrackWeight | pkg/device/cuda/weight_cache.go:169-178 | the key leaves list, index and counter |
| WeightCache.Backend.FreeWeight | pkg/device/cuda/weight_cache.go:181-235 | frees exactly the block of that weight, drops every graph that may embed it, and reports whether it was there |
| WeightCache.Backend.EvictOldestWeight | pkg/device/cuda/weight_cache.go:238-252 | the tail goes, if more than eight are left; only its matrix and block disappear |
| WeightCache.Backend.EnforceWeightCaps | pkg/device/cuda/weight_cache.go:255-263 | the order becomes a prefix of itself; number and bytes keep their caps or at most eight are left; with every matrix evicted a cap was still broken |
| WeightCache.Backend.TrackWeight | pkg/device/cuda/weight_cache.go:142-157 | the upload is most recent and afterwards the caps hold or at most eight are left |
| WeightCache.Backend.EvictRetry | pkg/device/cuda/weight_cache.go:274-285 | evicts one by one while memory is short: where nothing but memory was refused it ends with success, or with -1 and at most eight left; on success the pointer holds the weight and only evictions happened besides; no block is lost |
| WeightCache.Backend.EnsureMatrix | pkg/device/cuda/backend.go:896-935 | a pointer returned is the cached copy in the wanted dimensions; a hit returns the old pointer; other dimensions free the old copy; no other weight is replaced and no block is lost |
| WeightCache.Backend.EnsureAll | pkg/device/cuda/backend.go:1531-1576 | after up to eight ensures all pointers are still the cached copies of their own weights, exactly if no key has two shapes; it fails only if an upload was refused or a quantised weight is empty |
| WeightCache.HeldHasOneShape | pkg/device/cuda/backend.go:738-775 | where every live weight is the cached one, live pointers for all weights of an operation mean one shape per key |
| WeightCache.Backend.TwoShapes | pkg/device/cuda/backend.go:738-775 | the same key in a second shape leaves the first pointer dead or another block's |
| WeightCache.Backend.EvictQuantMatrix | pkg/device/cuda/weight_cache.go:290-303 | the name is gone in every kind, nothing else is, and the counter counts what went |
| WeightCache.Backend.SetWeightCacheLimits | pkg/device/cuda/weight_cache.go:123-130 | new caps hold at once as far as eight matrices allow |
| WeightCache.Backend.EvictMatricesWithPrefix | pkg/device/cuda/weight_cache.go:312-334 | exactly the matrices under the prefix are gone, and their number is returned |
| WeightCache.Backend.Realloc | pkg/device/cuda/driver.c:1493-1497 | a staging buffer may fail, stay or move; nothing but its slot changes |
| WeightCache.Backend.Grow | pkg/device/cuda/driver.c:1473-1531 | new blocks first, old ones freed last; a failure leaves the old buffers in use |
| WeightCache.Backend.PoolEnsure | pkg/device/cuda/driver.c:1473-1531 | success means both vectors fit; growth drops the graphs that embed the old buffers |
| WeightCache.Backend.PoolEnsureAux | pkg/device/cuda/driver.c:1533-1559 | the same for the auxiliary buffer |
| WeightCache.Backend.PoolEnsureResid | pkg/device/cuda/driver.c:1561-1604 | the same for the residual, whose growth ends residency; a buffer that holds the state asked for does not move |
| WeightCache.Backend.PoolEnsureMoeH | pkg/device/cuda/driver.c:1606-1632 | the same for the experts' snapshot, whose growth forgets it |
| WeightCache.Backend.CaptureGraph | pkg/device/cuda/driver.c:1751-1905 | a capture embeds the live pointers its key names |
| WeightCache.Backend.FindOrCapture | pkg/device/cuda/driver.c:3248-3318 | a graph found or captured embeds exactly what a capture would embed now; one in the table is used again, and a new one goes to its front, in the attention table in place of 128 others; there is none only if the capture was refused |
| WeightCache.Backend.KVCacheInit | pkg/device/cuda/backend.go:2284-2314 | replaces attention pool and KV cache, drops all graphs, is ready exactly if all sizes are positive and no allocation was refused, the tables of pointers included, and loses no block either way |
| WeightCache.Backend.HiddenUpload | pkg/device/cuda/backend.go:1786-1806 | resident with its length exactly on success; a refused growth or copy ends residency; an empty state is refused untouched |
| WeightCache.Backend.HiddenDownload | pkg/device/cuda/backend.go:1809-1828 | succeeds only for a resident state of that length, and for that unless the copy is refused; ends residency in any case |
| WeightCache.Backend.PeerReceive | pkg/device/cuda/driver.c:2742-2782 | the state is resident with its length exactly on success; a failed growth or copy leaves none; an empty state is refused untouched |
| WeightCache.Backend.PeerSend | pkg/device/cuda/peer.go:119-158 | a state leaves only if it was resident with that length, and is not here afterwards; a failed copy leaves it |
| WeightCache.Backend.MatMulVec | pkg/device/cuda/driver.c:3869-3881 | a one-off matrix leaves no trace in cache, tables or memory, and fails only for empty sizes or a refusal |
| WeightCache.Op.ArityIsProtected | pkg/device/cuda/backend.go:1672-1705 | no operation, those of expert layers, layer norms and embeddings included, holds more weights than the cache protects |
| WeightCache.KeyOfFits | pkg/device/cuda/backend.go:1463-1480 | the key of an operation has every weight in the place of its role, in its own dimensions, and null for a norm that the layer lacks |
| WeightCache.Op.OperandsAreOwn | pkg/device/cuda/driver.c:1810-1905 | a capture takes its pointers from the operation's own weights and the buffers it ensured |
| WeightCache.Backend.EnsurePools | pkg/device/cuda/driver.c:2339-2476 | success means every buffer the operation uses is there, large enough for what it reads and writes, and the hidden state it asks for survived the growth; what fits fails only if an allocation was refused |
| WeightCache.Backend.Fused | pkg/device/cuda/backend.go:1507-1630 | at launch every pointer is live and holds its weight, every buffer is there and large enough, and a replayed graph has each weight in the place of its role and embeds exactly the operation's current pointers; what fits the state is not done, or not by a graph, only if an allocation, copy, capture or launch was refused; what is done leaves the hidden state it is for |
| WeightCache.Backend.Attention | pkg/device/cuda/driver.c:638-760 | an attention graph is replayed only for a live layer and embeds its current buffers |
| WeightCache.Run | pkg/device/cuda/weight_cache.go:180-285 | in every run of operations, evictions, KV caches, uploads, downloads and peer copies, bookkeeping agrees, no table holds a dead or reused pointer and no block is lost |
| LayerSplit.LayerSplitBounds | pkg/device/multi.go:86-135 | none without devices; else bounds go from 0 to the layers without going back whatever the rounding yields; with exact arithmetic bound and layers are as weight so far and total weight but for half a layer; even sizes differ by at most one, larger first |
| LayerSplit.ClampNear | pkg/device/multi.go:128-129 | clamping to the last bound and the number of layers does not lead away from the share |
| LayerSplit.OwnerUnique | pkg/device/multi.go:195-204 | every layer of a plan has exactly one device |
| LayerSplit.PlacesAreLayers | pkg/device/multi.go:217-223 | every place of every device is a layer of the plan owned by that device |
| LayerSplit.PlaceInRange | pkg/device/multi.go:217-223 | the local index of a layer lies inside its device's cache |
| LayerSplit.PlacesDistinct | pkg/device/multi.go:217-223 | two layers never share a cache row |
| LayerSplit.ChangesTotal | pkg/device/multi.go:226-238 | in layer order the device changes once less than there are devices with layers |
| LayerRouting.Device.HiddenUpload | pkg/device/cuda/backend.go:1786-1806 | success makes the state resident, failure ends residency |
| LayerRouting.Device.HiddenDownload | pkg/device/cuda/backend.go:1809-1828 | returns the resident state of the asked length and ends residency even when it fails |
| LayerRouting.Device.EnablePeer | pkg/device/cuda/peer.go:70-114 | both devices remember the same answer, yes exactly if all three probing calls succeed, and a pair is probed once |
| LayerRouting.Device.PeerCopyResidTo | pkg/device/cuda/peer.go:119-158 | all or nothing: on success the destination alone is resident with the same state, on error the source still is; it succeeds exactly for a resident state of that length between devices that reach each other when no peer call fails |
| LayerRouting.AttemptMade | pkg/device/multi.go:274-292 | remembering both directions of a failed pair means it is never tried again |
| LayerRouting.MultiBackend.DeviceForLayer | pkg/device/multi.go:195-214 | the owner of a planned layer, behind the plan the last device with layers, or the first one where there is none |
| LayerRouting.MultiBackend.TryPeer | pkg/device/multi.go:274-292 | false leaves the source resident; it is true exactly where the pair is not known to be broken, can be reached and no peer call fails |
| LayerRouting.MultiBackend.MoveHidden | pkg/device/multi.go:242-271 | the state arrives unchanged, only the current device is resident, one counter goes up per move, that of the peers exactly if they can do it; only a failing host call loses the state |
| LayerRouting.MultiBackend.Route | pkg/device/multi.go:226-238 | the layer's device and local place, with the hidden state there |
| LayerRouting.MultiBackend.HiddenUpload | pkg/device/multi.go:468-495 | afterwards only the first layer's device is resident, whatever the state before |
| LayerRouting.MultiBackend.HiddenDownload | pkg/device/multi.go:497-499 | the current device's state, and none is resident afterwards |
| LayerRouting.MultiBackend.KVCacheInit | pkg/device/multi.go:576-597 | a plan with an empty cache for every layer on its device; a failure keeps the old plan; residency is not touched |
| LayerRouting.CacheWritten | pkg/device/multi.go:443-450 | writing at a layer's place is writing that layer's cache and no other |
| LayerRouting.MultiBackend.Step | pkg/device/multi.go:443-450 | one layer has the effect of that layer on a single device, or a host call or kernel failed |
| LayerRouting.MultiBackend.Token | pkg/device/multi.go:226-292 | a token gives the single-device result and caches, with one move per device change; only a failing host call or kernel makes it fail |
| LayerRouting.MultiBackend.Tokens | pkg/device/multi.go:226-292 | the same over any run of tokens, with the number of moves and no pair retried |
| Softmax.Rescale | pkg/compute/attention/softmax.go:14-20 | another shift of the scores rescales both softmax sums by one factor |
| Softmax.AnyShift | pkg/compute/attention/softmax.go:14-20 | the weighted sum does not depend on the shift |
| Softmax.SoftmaxExpInPlace | pkg/compute/attention/softmax.go:23-42 | the four-at-a-time loop leaves the exponentials and returns their sum |
| Softmax.SoftmaxInPlace | pkg/compute/attention/softmax.go:9-21 | the cells become weights that sum to one and weigh any values like the definition |
| Softmax.AttentionOneHead | pkg/compute/attention/attention.go:126-147 | one head writes exactly its output cells, each the softmax-weighted sum of its value column |
| FlashAttention.RescaleTo | pkg/device/cuda/ptx.go:2312-2326 | multiplying by exp(old maximum - new maximum) moves a running sum to the new maximum, from nothing included |
| FlashAttention.ChunkStep | pkg/device/cuda/ptx.go:2262-2351 | one chunk turns maximum, denominators and accumulators over a prefix into those over the longer prefix |
| FlashAttention.TreeMax | pkg/device/cuda/ptx.go:2295-2312 | the halving tree finds the maximum of all 256 cells |
| FlashAttention.TreeSum | pkg/device/cuda/ptx.go:2356-2373 | the halving tree sums all 256 cells |
| FlashAttention.Block.ScoreChunk | pkg/device/cuda/ptx.go:2262-2293 | every thread holds the scaled score of its position, minus infinity behind the end |
| FlashAttention.Block.Accumulate | pkg/device/cuda/ptx.go:2325-2347 | every output cell is rescaled and gets the chunk's weighted values |
| FlashAttention.Finished | pkg/device/cuda/ptx.go:2353-2378 | numerator over summed denominators is the reference output |
| FlashAttention.AttnFlash | pkg/device/cuda/ptx.go:2190-2381 | block (h, qi) writes exactly the row at its 32-bit start, and the row is softmax attention over seq_base + qi positions of its key-value head |
| FlashAttention.ChunkLoopEnds | pkg/device/cuda/ptx.go:2262-2351 | the 32-bit position counter passes a length exactly if it is at most 2^32 - 256 |
| AttentionKernels.AttnQk | pkg/device/cuda/ptx.go:2047-2119 | blocks in any order leave the scaled score of every position |
| AttentionKernels.TanhByOneExp | pkg/device/cuda/ptx.go:2023-2037 | the kernel's single exponential gives the hyperbolic tangent |
| AttentionKernels.SoftcapKernel | pkg/device/cuda/ptx.go:1997-2045 | every score becomes cap times tanh of itself over cap, once |
| AttentionKernels.SoftmaxSingleThread | pkg/device/cuda/ptx.go:2677-2748 | one thread leaves weights that sum to one and weigh any values like the definition |
| AttentionKernels.AttnV | pkg/device/cuda/ptx.go:2121-2182 | blocks in any order write exactly the head's cells, each the weighted sum of its value column |
| AttentionKernels.RowFromKernels | pkg/device/cuda/driver.c:754-825 | scores, softmax and weighted values make the reference row |
| AttentionKernels.CapShows | pkg/device/cuda/ptx.go:1995-1996 | under every exponential that is 1 only at 0, every cap changes the attention of some query over two positions |
| CausalBatch.ShiftedRow | pkg/device/cuda/driver.c:463-472 | shifting row pointers and sequence base by done queries gives the rows of the whole batch |
| CausalBatch.SolutionsAgree | pkg/compute/attention/attention_batch.go:9-15 | two buffers that solve one batch agree on every cell |
| CausalBatch.Heads.KvHead | pkg/device/cuda/driver.c:655-656 | dividing by the group size gives query head h the key-value head at h * kv / n, whose cells lie inside the row |
| CausalBatch.ServedBy | pkg/compute/attention/attention_batch.go:38-46 | that is the one head j with j / kv <= h / n < (j + 1) / kv, at cell j * dim of a row of kv * dim cells |
| CausalBatch.AttentionScoresBatchCausalInto | pkg/compute/attention/attention_batch.go:16-68 | accepts exactly the stated sizes; query b of head h gets single-query attention over pastLen + b + 1 positions, and nothing else is written, nothing at all without heads or cells |
| DeviceAttention.StartOf | pkg/device/cuda/ptx.go:2227-2231 | a row start never wraps upwards, and not at all below 2^32 |
| DeviceAttention.RunGrid | pkg/device/cuda/driver.c:485-487 | blocks in any order give all rows of the launch if the last one starts below 2^32 cells, and write nothing beyond 2^32 - 1 cells and one row in any case |
| DeviceAttention.LaunchFlash | pkg/device/cuda/driver.c:451-492 | launches of at most 65535 queries together give all rows if those of the first are in place, else its last cell is never written; it succeeds exactly with the kernel, a head of at most 256 cells and no failed launch |
| DeviceAttention.KvAttentionBatch | pkg/device/cuda/driver.c:1029-1074 | zero exactly if all dimensions fit and none of its calls fails, and then the batch is solved, or its last cell of the first launch is what memory held |
| DeviceAttention.FlashDevice | pkg/device/cuda/driver.c:496-554 | zero means the query is solved; nothing but its row is written |
| DeviceAttention.SoftmaxStep | pkg/device/cuda/driver.c:789-810 | by kernel or over the host the scores become their softmax, exactly if no call failed |
| DeviceAttention.HeadByKernels | pkg/device/cuda/driver.c:754-825 | scores, cap, softmax and values kernel by kernel give the capped attention of the head and write only its cells |
| DeviceAttention.KernelsDevice | pkg/device/cuda/driver.c:582-855 | succeeds exactly if no call failed, and then every head is solved with the cap |
| DeviceAttention.KvAttention | pkg/device/cuda/driver.c:557-855 | a single query is fused or done by the separate kernels, with the same result; no failed call means success |
| DeviceAttention.QueryByQuery | pkg/device/cuda/backend.go:2488-2495 | the loop gives query i attention over pastLen + i + 1 positions |
| DeviceAttention.AttentionScoresKVBatch | pkg/device/cuda/backend.go:2448-2498 | fused exactly if it is accepted, fits the fused kernel and none of its calls fails; fused, without the cap, or query by query, with it, the batch is solved; refused exactly for the stated reasons; an error means a failed call or a layer, length or cap that does not fit |
| DeviceAttention.FusedMissesCap | pkg/device/cuda/driver.c:1060-1062 | whatever the driver's cap, no buffer is both the fused and the capped answer to a certain query over two positions |
| Utf8.DecodeEncode | pkg/tokenizer/bytes.go:55-66 | decoding a written rune gives the rune and its length |
| Utf8.EncodeDecode | pkg/tokenizer/pretokenize.go:46 | writing a well-formed decoded rune gives its bytes |
| Utf8.EncodeOrdered | pkg/tokenizer/bytes.go:23-40 | byte order is rune order, as section 1 of RFC 3629 has it; between runes and well-formed sequences that leaves one pairing |
| Utf8.SanitizeKeepsValid | pkg/tokenizer/pretokenize.go:29-46 | conversion to runes and back keeps exactly the valid strings and lengthens all others |
| Utf8.SanitizeAppend | pkg/tokenizer/pretokenize.go:29-46 | a cut no rune straddles does not change the conversion |
| ByteAlphabet.LetterInjective | pkg/tokenizer/bytes.go:13-42 | the 256 letters are distinct |
| ByteAlphabet.LettersAre | pkg/tokenizer/bytes.go:13-42 | the letters in numbers: 0 to 0x20 from 0x100 on, 0x7F to 0xA0 from 0x121 on, 0xAD at 0x143, the others themselves |
| ByteAlphabet.Init | pkg/tokenizer/bytes.go:13-42 | both tables hold exactly the letters of all bytes and invert each other |
| ByteAlphabet.BytesOfSpelled | pkg/tokenizer/bytes.go:45-66 | decoding undoes spelling, in front of anything |
| ByteAlphabet.ByteEncodeWord | pkg/tokenizer/bytes.go:45-52 | the word is spelled and decodes to itself |
| ByteAlphabet.ByteDecodeToken | pkg/tokenizer/bytes.go:54-66 | letters become bytes, other runes vanish |
| ByteAlphabet.DecodesToItself | pkg/tokenizer/bytes.go:54-66 | a token of characters 0x21..0x7E decodes to itself, and every other one to something shorter |
| MergeLoop.Utf8Symbols | pkg/tokenizer/tokenizer.go:228-241 | the string cut at its runes |
| MergeLoop.FindBest | pkg/tokenizer/tokenizer.go:205-211 | the leftmost pair of lowest rank, or none if no adjacent pair can be merged |
| MergeLoop.Bpe | pkg/tokenizer/tokenizer.go:191-226 | best pairs are merged until none is left, and the loop ends |
| MergeLoop.MergesOneWay | pkg/tokenizer/tokenizer.go:191-226 | there is one result, however the best pair is found |
| MergeLoop.MergedJoin | pkg/tokenizer/tokenizer.go:217-222 | the symbols join to the input and no adjacent pair is mergeable |
| MergeLoop.MergedWord | pkg/tokenizer/tokenizer.go:100-113 | merged symbols of a spelled word decode one by one to the word |
| MergeLoop.MergedInVocab | pkg/tokenizer/tokenizer.go:106-111 | with all letters and all merge results in the vocabulary every symbol is |
| SpecialTokens.SplitOneWay | pkg/tokenizer/special.go:37-78 | longest special token first and plain text up to the next one is one splitting |
| SpecialTokens.IndexOf | pkg/tokenizer/special.go:80-88 | the first occurrence, or none |
| SpecialTokens.SplitBySpecial | pkg/tokenizer/special.go:37-78 | segments cover the text; a special one is the longest at its position; no special token starts in a plain one |
| SpecialTokens.BuildSpecialTokens | pkg/tokenizer/special.go:10-35 | exactly the special tokens, longest first |
| SpecialTokens.SpecialsAre | pkg/tokenizer/special.go:15-29 | special are the tokens that start with a less-than sign and go on, and without merges `[INST]` and `[/INST]` |
| Pretokenizer.Alternatives | pkg/tokenizer/pretokenize.go:65-169 | a pattern's first match is that of its first alternative that matches, whatever its last alternatives are |
| Pretokenizer.PatternsAgree | pkg/tokenizer/tokenizer.go:12 | Go's reading of the pattern, without look-ahead and with ASCII `\s`, and the published one match alike exactly where what Go does not take as whitespace, and the rune that look-ahead gives back, make no difference |
| Pretokenizer.NoBreakSpaceDiffers | pkg/tokenizer/tokenizer.go:12 | a no-break space and an exclamation mark are one piece to Go's pattern and two to the published one |
| Pretokenizer.LinesMatch | pkg/tokenizer/pretokenize.go:139-153 | the greedy whitespace-and-newline alternative ends behind the last newline of the run |
| Pretokenizer.InnerSpaceMatch | pkg/tokenizer/pretokenize.go:155-159 | whitespace not before text is all but the last blank, or all at the end |
| Pretokenizer.NextPiece | pkg/tokenizer/pretokenize.go:65-169 | every round moves on inside the text and ends where the pattern's match ends, if and only if it did not start at a lone NUL |
| Pretokenizer.PretokenizeRunes | pkg/tokenizer/pretokenize.go:28-173 | non-empty pieces that join to the text, cut where the pattern and lone NULs cut it, and they are the pattern's pieces if and only if none of the pattern's starts at a lone NUL |
| Pretokenizer.LoneNulExists | pkg/tokenizer/pretokenize.go:110 | two NULs are one match of the pattern but two pieces |
| Tokenizer.IndexTokens | pkg/tokenizer/tokenizer.go:53-56 | the index names the last occurrence of every token |
| Tokenizer.RankMerges | pkg/tokenizer/tokenizer.go:58-67 | lines are cut at their first blank, a pair has the rank of its last line, a line without blank is an error |
| Tokenizer.TextOneWay | pkg/tokenizer/tokenizer.go:94-156 | splitting, cutting, spelling, merging and looking up leave at most one list of ids for a text |
| Tokenizer.LoadBPE | pkg/tokenizer/tokenizer.go:47-92 | a vocabulary with merges is byte-encoded, one without is not, and bad merges are refused |
| Tokenizer.RestoredIsSanitized | pkg/tokenizer/tokenizer.go:141-153 | where the special tokens that occur are plain ASCII the segments restore to the whole text after conversion |
| Tokenizer.RestoredExactly | pkg/tokenizer/tokenizer.go:141-180 | segments of valid UTF-8 restore to the text if and only if every special token among them is plain ASCII, and never to anything longer |
| Tokenizer.Tokenizer.EnsureSpecial | pkg/tokenizer/special.go:10-35 | the cached list is the list; it is built once, but an empty one every time |
| Tokenizer.Tokenizer.EncodeSegment | pkg/tokenizer/tokenizer.go:94-116 | the ids are, piece by piece of the pretokenizer, those of the symbols that merging the spelled piece leaves; none are returned only if some symbol has none; they decode to the segment after conversion; a complete vocabulary never fails |
| Tokenizer.Tokenizer.Encode | pkg/tokenizer/tokenizer.go:134-156 | one id for every special token and the ids of every plain segment, in order, or none if there are none; they decode to what the split of the text restores to; a complete vocabulary never fails |
| Tokenizer.Tokenizer.Decode | pkg/tokenizer/tokenizer.go:159-180 | tokens decode one by one and unknown ids are skipped |
| Tokenizer.Tokenizer.RoundTrip | pkg/tokenizer/tokenizer.go:134-180 | decode after encode is the converted text where the special tokens that occur are plain ASCII; valid texts with valid special tokens come back unchanged if and only if they are, and never longer |
| DeviceQuant.BlockBytes | pkg/device/cuda/driver.c:4179-4180 | blocks in the file and on the device are as long as their fields together, in all five formats |
| QuantBits.WordIs | pkg/quant/q4_k.go:30-31 | a stored half word is its first byte plus 256 times its second |
| QuantBits.NibblesAre | pkg/quant/q4_k.go:47-53 | low and high nibble are remainder and quotient by 16 |
| QuantBits.CrumbIs | pkg/quant/q2_q3_q8_k.go:33-47 | bit pair k is the quotient by its power of four, modulo 4 |
| QuantBits.MaskIs | pkg/quant/q5_k.go:39-47 | a mask hits exactly if the quotient by its power of two is odd |
| QuantBits.ScaleMinIs | pkg/quant/q4_k.go:14-22 | six-bit scale and minimum in numbers: six bits of one byte, or a nibble and the two bits that those leave |
| QuantBits.PackedIs | pkg/quant/q2_q3_q8_k.go:171-195 | a packed scale in numbers: a nibble and 16 times a bit pair |
| QuantBits.UnpackQ3KScales | pkg/quant/q2_q3_q8_k.go:171-195 | four words masked at once hold, byte by byte, a nibble and two bits of their own source bytes |
| QuantBits.MaskedWord | pkg/device/cuda/driver.c:4386-4404 | the masks make the four scale words |
| QuantBlocks.BlockAt | pkg/quant/q4_k.go:25-61 | in every format the bit fields of the program give the weight that the layout says in quotients and remainders of its bytes |
| QuantBlocks.DequantBlockQ2_K | pkg/quant/q2_q3_q8_k.go:14-54 | cell y is the weight that the layout gives it in numbers: scale and minimum of its sixteen, and its bit pair |
| QuantBlocks.DequantBlockQ3_K | pkg/quant/q2_q3_q8_k.go:121-169 | the same, with packed scales and 4 less where the high mask lacks the bit, found by a moving mask |
| QuantBlocks.DequantBlockQ4_K | pkg/quant/q4_k.go:25-61 | the same with six-bit scales and nibbles |
| QuantBlocks.DequantBlockQ5_K | pkg/quant/q5_k.go:12-54 | the same with the fifth bit from two moving masks |
| QuantBlocks.DequantBlockQ6_K | pkg/quant/q6_k.go:12-44 | four interleaved quarters fill the block with its weights |
| QuantBlocks.DequantInto | pkg/quant/q4_k.go:74-102 | accepts exactly enough data and room; the first n cells are the weights, the last block possibly in part |
| DeviceQuant.ExpandQ2_K | pkg/device/cuda/driver.c:4588-4598 | scales and minima as floats, packed bits behind them |
| DeviceQuant.ExpandQ3_K | pkg/device/cuda/driver.c:4647-4656 | signed scales as floats, high mask and bits behind them |
| DeviceQuant.ExpandQ4_K | pkg/device/cuda/driver.c:4218-4232 | scales, minima, nibbles |
| DeviceQuant.ExpandQ5_K | pkg/device/cuda/driver.c:4281-4296 | scales, minima, high bits, nibbles |
| DeviceQuant.ExpandQ6_K | pkg/device/cuda/driver.c:4345-4357 | sixteen scales, low nibbles, high bits |
| DeviceQuant.Upload | pkg/device/cuda/driver.c:4198-4252 | refuses exactly empty data, partial blocks, missing memory and a failed copy, each with its code; otherwise every block lies expanded at its place |
| QuantKernels.Kernel2 | pkg/device/cuda/ptx.go:1237-1285 | the addresses and shifts of the kernel find the reference weight |
| QuantKernels.Kernel3 | pkg/device/cuda/ptx.go:1350-1411 | the same, with the mask bit subtracting 4 |
| QuantKernels.Kernel4 | pkg/device/cuda/ptx.go:526-579 | the same for nibbles, low or high by group parity |
| QuantKernels.Kernel5 | pkg/device/cuda/ptx.go:641-707 | the same with 16 added where the group's bit is set |
| QuantKernels.Kernel6 | pkg/device/cuda/ptx.go:770-852 | the same for each of the four weights of a lane |
| QuantKernels.QuartersJoin | pkg/device/cuda/ptx.go:853-880 | adding four columns 32 apart per lane sums the same half block |
| QuantKernels.AllBlocksFound | pkg/device/cuda/ptx.go:519-522 | the 32-bit block numbers are the true ones exactly if the matrix has at most 2^32 blocks |
| QuantKernels.MatMulVecRow | pkg/device/cuda/ptx.go:484-596 | a row's thread computes the dot product with the weights at its block numbers, the reference weights of the row where none wraps |
| QuantKernels.BothWays | pkg/quant/q4_k.go:105-121 | device and host products agree on every uploaded matrix of at most 2^32 whole blocks |
| RateLimiter.ServedIs | pkg/server/ratelimit.go:65-94 | one request in numbers: a minute's requests at first, a sixtieth of them per second since, one taken, the whole ones left in the answer |
| RateLimiter.LostIsFull | pkg/server/ratelimit.go:65-94 | a request whose bucket is gone is served as from the kept bucket if and only if that one would have refilled to the burst |
| RateLimiter.AdmissionBound | pkg/server/ratelimit.go:79-94 | in any run, whatever the order of readings, and in any interval of dt seconds a client is admitted at most perMinute + perMinute * dt / 60 times |
| RateLimiter.UnnoticedExactly | pkg/server/ratelimit.go:60-63 | every request is served as if nothing were swept exactly if every swept bucket that is asked for would be full again |
| RateLimiter.SmallSkewUnnoticed | pkg/server/ratelimit.go:97-103 | readings at most 270 seconds behind others leave sweeping unnoticed |
| RateLimiter.DebtForgottenBreaks | pkg/server/ratelimit.go:55-63 | with a reading more than 270 seconds behind, though not older than the limiter, a client gets two full bursts within a minute |
| RateLimiter.SkewExactly | pkg/server/ratelimit.go:55-63 | under any limit all runs with readings at most d behind and none older than the limiter keep the bound if and only if d is at most 270 seconds |
| RateLimiter.NewRateLimiter | pkg/server/ratelimit.go:25-42 | no limiter below one request a minute |
| RateLimiter.RateLimiter.AllowWithRemaining | pkg/server/ratelimit.go:50-95 | in any run the answer is that of the swept table; where no bucket was missed it is that of a limiter that never sweeps |
| RateLimiter.RateLimiter.SweepLocked | pkg/server/ratelimit.go:97-103 | exactly the buckets idle for more than ten minutes go |
| RateLimiter.Serve | pkg/server/ratelimit.go:50-103 | whole runs: where no bucket was missed, or with readings at most 270 seconds behind, every answer is unswept and every interval bounded; everything passes without a limiter |
| RateLimiter.LateThenEarly | pkg/server/ratelimit.go:55-63 | the limiter run with a late and then an early reading, both after its construction, admits twice within 59 seconds at one request a minute |

## Left out

- Architecture code behind `Forward`, samplers, penalties, stop sequences and callbacks are uninterpreted functions of the logits and the history; sliding windows and prefill chunking are inside the model's logits.
- The logits buffer that the Go code reuses between steps is copied here; its aliasing is not modelled.
- HTTP, JSON, streaming, authentication, sessions expiring by time, mutexes themselves: each critical section is one atomic step.
- The twelve per-kind weight maps are one map keyed by kind and name; the linked list with its index is a sequence.
- `prepareVecUpload` skipping by host address, the host's own residency flag where it differs from the pool's, MLA attention, batched matrix products, element-wise operations that allocate their buffers per call, softcap graphs, and the `eps` and activation function that graph keys omit.
- Buffers of the attention pool are as good as fresh ones here, because every cell read is written first; the captured form of the separate kernels is `WeightCache.Backend.Attention`.
- GraphReplay.AttentionComputes: the heads of an attention graph, which share one buffer of scores, are one step here; `DeviceAttention.HeadByKernels` has them one by one.
- C int products such as heads times head size are taken not to overflow.
- Floating point: sums, exponentials and dequantised weights are reals; the exponential is any positive function that turns sums into products, and `ex2` with its log2(e) factor is that same function. SIMD and fma order do not matter over reals.
- The fused kernel's one reduction buffer is two arrays here, and threads between two barriers step at once or in order, which their disjoint cells make equal.
- ConversationCache.Conversation.StoreLogits: logits are values here, so neither the reuse of the old buffer nor the shortcut for a slice stored over itself shows.
- CausalBatch.AttentionScoresBatchCausalInto: a length is never negative and there is a key-value head; without one the source divides by zero.
- QuantKernels.MatMulVecRow: the thread index and the 32-bit vector index are taken as they are, below the row and column counts.
- Bytes of a device float other than the first are opaque, so reading a float at a wrong offset yields nothing instead of mixed bytes.
- The expanded buffer of an upload is built block by block as a sequence instead of through one moving pointer.
- Q4_0, Q4_1, Q5_0, Q5_1, Q8_0 and Q8_K layouts, which are simpler; binary16 conversion is one uninterpreted function.
- Regexp-based pretokenizers and the greedy vocabulary matcher, which drops blanks; chat templates.
- Tokenizer.LoadBPE: vocabularies for the llama-bpe pretokenizer, which are byte-encoded even without merges, are not loaded.
- Tokenizer.Tokenizer.EncodeSegment: without merges the source goes to the greedy matcher.
- Tokenizer.Tokenizer.Decode: tokens that are not byte-encoded, where the source replaces its two blank marks.
- Contractions fold case by an arbitrary lower-case function, as the code does; the pattern's own folding of a few more characters is not claimed.
- Operations of the multi-device backend that only forward to the current device, layer routing for layers outside the plan beyond which device they get, and closed devices.
- Device-list parsing, statistics, names, plans printed for logs, debug dumps and the Metal scaffold.
