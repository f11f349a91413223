# ai-engine: batching, partitioning and distribution in Dafny

This project models the parts of ai-engine that decide what tokens a client receives and where they are computed, and
proves that the fast, shared, distributed machinery computes what one plain, single-sequence model would.

- **Paged continuous batching** (`BlockTable`, `Attention`, `Causal`, `Softmax`, `Transformer`, `Incremental`,
  `Scheduler*`, `Generation`, `Engine`, `EngineRun`). Block allocator, paged key/value pools, prefill and batched decode,
  and the scheduler loop. `Scheduler.dfy` is the loop as a state machine on values; `Engine.dfy` is the loop on mutable
  objects, each method proved to be one step of that machine. Over every run, with any arrivals and any device failures,
  each request receives exactly its own generation, or a prefix of it and one error it had cause to get; nobody starves;
  and every block is owned exactly once. `Softmax.dfy` says what the attention at the bottom of it computes.
- **Layer partition and pipeline ring** (`Partition`, `Agreement`, `ManualPartition`, `Ring`, `Sorting`). The min-max
  dynamic program with its loop-filled tables is optimal and its feasibility exact; nodes agree without a coordinator;
  the ring walk is total.
- **Leaderless forward pass** (`Runtime`, `Peer`, `Cluster`, `Coordinator`, `Mesh`). Per-request caches on peers,
  coordinators driving requests hop by hop amid any traffic of others, and mesh formation without deadlock.
- **Bytes and layouts** (`Bytes`, `Gguf`, `GgufFile`, `Layout`, `BlockQuant`, `Quant`, `Matrix`, `Sse`,
  `SseRoundTrip`). GGUF round trip, Q/K weight layout, 4-bit quantisation over exact reals, event streams read back whole
  however they are cut.

`Basics.dfy` holds shared types. `dafny verify dfyconfig.toml` checks everything.

## How the source is seen

- A `Model` is a record of arbitrary deterministic functions (embedding, key/value projection with norms and RoPE,
  softmax numerators, value channels, output mix, head) over real vectors. What is fixed is the data flow: which rows a
  query sees, in which order, at which position. Minus-infinity masking is weight zero in both softmax sums. `sample` is
  a function of logits and temperature, as the seed is fixed.
- Device failures are choices of the environment: where a forward pass stops, down to the gap between a row's key and
  its value, and whether a logits row is lost.
- The senders `tx` of all requests are one trace of messages, read per request id. Messages carry the kind of error.
- Loop bodies of the source are methods of their own where that keeps a proof small; the order of effects is kept.
- With `max_num_seqs = 0` the blocking path still admits one request; the bound proved is `max(1, max_num_seqs)`.
- Empty prompts are excluded: `prefill_seq` would take row `n - 1` of none. Machine integers are unbounded here; the
  partition solver asks that `n_layers * 1000` stay below its infeasible mark.
- A peer keeps one cache map here, not one for each connection; request ids are unique, so the difference cannot be
  seen, and a peer handles one frame after the other. Requests stay within cache capacity, as the source aborts on
  overflow: in `Cluster` by admission, in `Coordinator` by skipping traffic that has no room.
- Node ids are byte strings and compare as bytes, as Rust strings do. SHA-256 is an arbitrary function.

## Where code and documentation differ

- `max_tokens = 1` can yield two tokens and a leading EOS is emitted (`Generation.ParityFails`, exact condition in
  `Generation.ParityExactly`).
- Equal manifest hashes do not imply an identical assignment (`Agreement.HashCollision`, exact condition in
  `Agreement.PreimageExactly`).
- The Q/K permutation is described as self-inverse; it is only for head sizes 2 and 4 (`Layout.SelfInverseExactly`). The
  loader applies the true inverse, so nothing is misplaced (`Layout.PermutationsInvert`).
- The second refusal of `auto_partition` is reached only through a zero score (`Partition.AutoCorrect`).

## Model

| member | source | states |
|---|---|---|
| BlockTables.BlocksForLeast | crates/ai-engine-candle/src/paged/block_table.rs:28-30 | the block count is the least one whose slots cover the tokens (both directions) |
| BlockTables.BlocksForIsDivCeil | crates/ai-engine-candle/src/paged/block_table.rs:28-30 | the recursive count is `div_ceil` |
| BlockTables.PlaceIsDivMod | crates/ai-engine-candle/src/paged/block_table.rs:55-58 | walking a table block by block lands on block `pos / size`, slot `pos % size` |
| BlockTables.GrowExact | crates/ai-engine-candle/src/paged/block_table.rs:34-47 | growing fails exactly when table plus free list cannot cover the request; failure changes nothing; success keeps the old blocks in front, adds exactly the missing ones and loses no id |
| BlockTables.GrowTakesLast | crates/ai-engine-candle/src/paged/block_table.rs:34-47 | blocks are handed out from the end of the free list, the one released last first |
| BlockTables.DistinctSlots | crates/ai-engine-candle/src/paged/block_table.rs:55-58 | under ownership, two different (table, in-range position) pairs never share a physical slot |
| BlockTables.OwnedTablesApart | crates/ai-engine-candle/src/paged/block_table.rs:34-52 | an owned pool has no table with a repeated block and no two tables with a common one |
| BlockTables.OwnedCounts | crates/ai-engine-candle/src/paged/block_table.rs:23-52 | free blocks plus blocks in tables are all the blocks |
| BlockTables.RunOpsOwned | crates/ai-engine-candle/src/paged/block_table.rs:34-52 | any sequence of allocations and releases on any tables keeps every block in exactly one place |
| BlockTables.FreshRunOwned | crates/ai-engine-candle/src/paged/block_table.rs:17-52 | the same from a new allocator with any number of empty tables |
| BlockTables.BlockAllocator.constructor | crates/ai-engine-candle/src/paged/block_table.rs:17-21 | a new allocator holds every id once, lowest handed out first |
| BlockTables.BlockAllocator.EnsureCapacity | crates/ai-engine-candle/src/paged/block_table.rs:34-47 | the loop does exactly what the specification of growing says, on success and on failure |
| BlockTables.BlockAllocator.Release | crates/ai-engine-candle/src/paged/block_table.rs:50-52 | the table ends empty and its blocks are appended to the free list in order |
| BlockTables.BlockAllocator.Locate | crates/ai-engine-candle/src/paged/block_table.rs:55-58 | the located slot is the specification's place of the position |
| Attention.RowAtAfterWrite | crates/ai-engine-candle/src/paged/attention.rs:59-83 | a write reaches its own position and no other position of any table that does not alias |
| Attention.GatherAfterWrite | crates/ai-engine-candle/src/paged/attention.rs:59-97 | a table is a log: a write at the end appends one row to what is gathered |
| Attention.GatherAfterWriteRows | crates/ai-engine-candle/src/paged/attention.rs:59-97 | writing rows at consecutive positions makes the gather the old prefix followed by exactly those rows |
| Attention.WriteIsolated | crates/ai-engine-candle/src/paged/attention.rs:59-97 | a write through one table never changes what a disjoint table gathers |
| Attention.WriteRowsIsolated | crates/ai-engine-candle/src/paged/attention.rs:59-97 | nor do many writes |
| Attention.GatherGrown | crates/ai-engine-candle/src/paged/attention.rs:86-97 | growing a table does not change its gather, whatever stale rows the new blocks hold |
| Attention.MaskRowOpens | crates/ai-engine-candle/src/paged/attention.rs:20-26 | a mask row lets through exactly the keys that exist and are not in the future |
| Attention.MaskBufferRow | crates/ai-engine-candle/src/paged/attention.rs:19-27 | row `b` of the flat buffer is row `b`'s mask: rows do not overlap |
| Attention.BuildMask | crates/ai-engine-candle/src/paged/attention.rs:11-28 | the two loops fill the buffer with every row's mask |
| Attention.WriteSomeIsolated | crates/ai-engine-candle/src/paged/attention.rs:59-83 | a write that fails on the way, even between a row's key and its value, changes no disjoint table's gather |
| Attention.KvPool.Write | crates/ai-engine-candle/src/paged/attention.rs:59-83 | the write loop puts key and value of every new row at its position, in place; where a slice fails it stops there, and the pool is as far as the writes got |
| Attention.KvPool.GatherSeq | crates/ai-engine-candle/src/paged/attention.rs:86-97 | the index loop and the flat lookup return the rows of positions `0..len` in order |
| Causal.SumsDropMasked | crates/ai-engine-candle/src/paged/attention.rs:103-126 | a key masked with minus infinity adds nothing to either softmax sum (what the sums are: the `Softmax` rows below) |
| Causal.MaskIsPrefix | crates/ai-engine-candle/src/paged/attention.rs:103-126 | attention over a masked list is attention over the visible prefix |
| Causal.ActCausal | crates/ai-engine-candle/src/paged/transformer.rs:120-212 | activations at a position depend on the tokens up to it only |
| Causal.RowsCausal | crates/ai-engine-candle/src/paged/transformer.rs:120-212 | so do the cached rows |
| Softmax.AttentionBalances | crates/ai-engine-candle/src/paged/attention.rs:103-126 | attention is the mean of the visible value rows under their keys' weights and no other number is: the weighted deviations from it, and from it alone, add up to zero |
| Softmax.AttentionBetween | crates/ai-engine-candle/src/paged/attention.rs:103-126 | each channel lies between any two bounds that hold the visible value rows |
| Softmax.AttentionOfOne | crates/ai-engine-candle/src/paged/attention.rs:103-126 | a query that sees one row gets exactly that row's value, whatever its key |
| Softmax.AttentionPermutes | crates/ai-engine-candle/src/paged/attention.rs:103-126 | permuting the rows together with their mask changes nothing |
| Softmax.TwoTokens | crates/ai-engine-candle/src/paged/transformer.rs:120-212 | one layer over two tokens spelled out, from embeddings to logits: which row is projected at which position, whose key weighs whose value |
| Softmax.LoneToken | crates/ai-engine-candle/src/paged/transformer.rs:120-212 | over a text of one token every layer mixes the activation with that token's own value row of that layer |
| Transformers.PrefillGathers | crates/ai-engine-candle/src/paged/transformer.rs:120-212 | a completed prefill leaves in every layer exactly the causal rows of the prompt |
| Transformers.PrefillIsolated | crates/ai-engine-candle/src/paged/transformer.rs:120-212 | a prefill, completed or cut off by a device failure, leaves every disjoint table's rows alone |
| Transformers.PaddingInvisible | crates/ai-engine-candle/src/paged/transformer.rs:278-292 | zero padding and future keys do not change a row's attention, whatever they hold |
| Transformers.BatchLayerIgnoresPadding | crates/ai-engine-candle/src/paged/transformer.rs:271-302 | a padded, masked batch layer computes for each row what the row alone would |
| Transformers.DecodeXsCausal | crates/ai-engine-candle/src/paged/transformer.rs:243-303 | in a batch of sequences whose tables hold their own causal rows, every layer's activation is the row's own causal one |
| Transformers.DecodeLogsGrow | crates/ai-engine-candle/src/paged/transformer.rs:273-284 | after the step each table holds the causal rows of its longer token list |
| Transformers.DecodeIsCausal | crates/ai-engine-candle/src/paged/transformer.rs:219-307 | whatever else is in the batch, a row gets the logits of its own token list recomputed from scratch |
| Transformers.Transformer.CausalMask | crates/ai-engine-candle/src/paged/transformer.rs:139-148 | the prompt mask loops fill the causal buffer |
| Transformers.Transformer.PromptStep | crates/ai-engine-candle/src/paged/transformer.rs:150-206 | one layer of a prefill: rows stored, next activations causal, or the failure point reached |
| Transformers.Transformer.PrefillSeq | crates/ai-engine-candle/src/paged/transformer.rs:120-212 | the whole prompt: pools as specified for any failure point; logits are the causal logits of the last token |
| Transformers.Transformer.StoreBatch | crates/ai-engine-candle/src/paged/transformer.rs:271-284 | the inner write, read back and pad loop of a decode layer |
| Transformers.Transformer.DecodeStep | crates/ai-engine-candle/src/paged/transformer.rs:219-307 | the layer loop: pools and logits as specified for any failure point |
| Incremental.StepIsPrefill | crates/ai-engine-candle/src/paged/transformer.rs:120-307 | one decode step after a prefill leaves in every layer the very pool, slot for slot, of the longer prefill, and its logits |
| Incremental.IncrementalIsOneShot | crates/ai-engine-candle/src/paged/transformer.rs:120-307 | prefill plus any number of single-token steps equals one causal prefill over the whole list, in every layer's pool and in the last logits |
| Generation.StepsLeast | crates/ai-engine-candle/src/paged/engine.rs:160-178 | the decode steps of a request are the least number ending in EOS or the limit, at most `max(1, max_tokens - 1)`; the stream is what they sampled |
| Generation.Generate | crates/ai-engine-candle/src/model.rs:164-209 | the plain loop, its running index always the number of tokens the library has cached, returns the specified cut of the generation; it fails exactly on an empty prompt or at the first failing forward call it makes, having told the tokens before it |
| Generation.GenIsSampled | crates/ai-engine-candle/src/paged/engine.rs:160-236 | each generated token is sampled, at the request's temperature, from the causal logits of the prompt and the tokens before it |
| Generation.FullExactly | crates/ai-engine-candle/src/paged/engine.rs:160-178 | the scheduler's stream: with `e >= 1` the first step that samples EOS or has `e + 1 >= max_tokens`, `e + 1` tokens, or `e` if the last is EOS |
| Generation.PlainExactly | crates/ai-engine-candle/src/model.rs:164-209 | the plain loop's output: the tokens before the first EOS, or exactly `max_tokens` when none comes before |
| Generation.FullFromExtends | crates/ai-engine-candle/src/paged/engine.rs:160-177 | what the scheduler has emitted is a prefix of the whole stream, whose length the limit bounds |
| Generation.ParityExactly | crates/ai-engine-candle/src/paged/engine.rs:160-236 | the scheduler's stream equals the plain loop's output if and only if nothing is asked for, or the first token is not EOS and the limit is at least two or the second token is EOS |
| Generation.ParityFails | crates/ai-engine-candle/src/paged/engine.rs:226-236 | the two ways parity fails, on concrete inputs: a limit of one yields two tokens, a leading EOS is emitted |
| SchedulerStorage.PrefillKeepsInv | crates/ai-engine-candle/src/paged/engine.rs:182-237 | every outcome of an admission, success or any error, keeps the storage invariant |
| SchedulerStorage.DecodeKeepsInv | crates/ai-engine-candle/src/paged/engine.rs:130-178 | so does a decode round, however it ends |
| SchedulerStorage.TickKeepsInv | crates/ai-engine-candle/src/paged/engine.rs:76-179 | so does a whole turn of the loop |
| SchedulerStorage.TickBounded | crates/ai-engine-candle/src/paged/engine.rs:77-128 | a turn never runs more than `max(1, max_num_seqs)` sequences |
| SchedulerStorage.RunStorage | crates/ai-engine-candle/src/paged/engine.rs:62-180 | over every run: at most `max(1, max_num_seqs)` sequences run; each sequence at `prompt + produced - 1 <= max_seq` with exactly the blocks for it and its own causal rows; free list and tables partition the pool |
| SchedulerStreams.TickLedger | crates/ai-engine-candle/src/paged/engine.rs:76-179 | a turn keeps the ledger: each request waits in silence, runs with exactly its generation so far sent, or is settled |
| SchedulerStreams.RunLedger | crates/ai-engine-candle/src/paged/engine.rs:62-180 | the ledger holds after every run |
| SchedulerStreams.EveryRequestServed | crates/ai-engine-candle/src/paged/engine.rs:62-237 | over every run, a request is queued in silence, running with exactly its generation so far, has its whole generation, or has a prefix of it and one error |
| SchedulerStreams.FinishedExactly | crates/ai-engine-candle/src/paged/engine.rs:160-178 | a request that left without an error received exactly its generation |
| SchedulerStreams.BatchIndependence | crates/ai-engine-candle/src/paged/engine.rs:62-180 | equal requests get equal streams from any two engines with the same model, whatever limits and company they have, unless one of them ended in an error |
| SchedulerStreams.EvictionErrors | crates/ai-engine-candle/src/paged/engine.rs:105-128 | every eviction has its cause: the context error comes exactly at the context's end, to a request whose generation does not fit, after the tokens that did |
| SchedulerProgress.TurnGains | crates/ai-engine-candle/src/paged/engine.rs:76-179 | a sequence that runs after a turn ran before it with one token fewer, or was admitted in it and already has a decoded token besides the prompt's (without it only when `max_num_seqs` is 0) |
| SchedulerProgress.LeavesInTime | crates/ai-engine-candle/src/paged/engine.rs:160-178 | a sequence is gone, its stream settled, after `max(1, max_tokens - produced)` further turns |
| SchedulerProgress.QueueIsTail | crates/ai-engine-candle/src/paged/engine.rs:77-98 | the queue is first come, first served: what waits is the tail of what arrived |
| SchedulerProgress.DrainsInTime | crates/ai-engine-candle/src/paged/engine.rs:76-179 | once arrivals stop, queue and batch are empty after as many turns as there is work left, whatever the device does |
| SchedulerProgress.SettledInTime | crates/ai-engine-candle/src/paged/engine.rs:76-179 | nobody starves: a request has left with its stream settled within `max(2, max_tokens)` turns for itself and each request before it, whatever arrives later |
| SchedulerProgress.SettledByLongest | crates/ai-engine-candle/src/paged/engine.rs:76-179 | in numbers: if no request up to arrival `j` may produce more than `most >= 2` tokens, arrival `j` has left, settled, `(j + 1) * most` turns later |
| SchedulerSizing.AmplePoolNeverExhausted | crates/ai-engine-candle/src/paged/engine.rs:102-128 | in a pool of `max(1, max_num_seqs) * ceil(max_seq / block_size)` blocks no request is ever turned away or evicted for lack of blocks |
| SchedulerSizing.AmpleExactly | crates/ai-engine-candle/src/paged/engine.rs:102-128 | that size, `max(1, max_num_seqs) * ((max_seq + block_size - 1) / block_size)`, is exact: any smaller pool has a run, over requests with distinct ids, that turns one away for lack of blocks |
| SchedulerHealth.RunUnharmed | crates/ai-engine-candle/src/paged/engine.rs:62-180 | when no decode step fails, a request hears of no device error but its own prefill's, however its company fares |
| SchedulerHealth.OutcomeExactly | crates/ai-engine-candle/src/paged/engine.rs:62-237 | then, in an ample pool, a request with a clean prefill that has left received exactly its outcome, in any company: its whole generation if and only if `max_tokens` is 0 or prompt plus decode steps fit the context; else `PromptTooLong`, or `ContextExceeded` after exactly the tokens that fitted |
| SchedulerHealth.OutcomeInNumbers | crates/ai-engine-candle/src/paged/engine.rs:62-237 | the same in numbers: nothing for `max_tokens = 0`; `PromptTooLong` beyond `max_seq`; with `e` decode steps needed, all tokens if `prompt + e <= max_seq`, else `max_seq - prompt + 1` of them and `ContextExceeded` |
| SchedulerHealth.FittingRequestDelivered | crates/ai-engine-candle/src/paged/engine.rs:62-237 | a request with `max_tokens = 0` or `prompt + max(1, max_tokens - 1) <= max_seq` has its whole generation within a bounded number of turns, whatever else arrives before or after it |
| PagedEngine.Engine.constructor | crates/ai-engine-candle/src/paged/engine.rs:68-74 | an engine starts in the machine's start state |
| PagedEngine.Engine.TryPrefill | crates/ai-engine-candle/src/paged/engine.rs:182-237 | `prefill` on the objects is the machine's admission, message for message |
| PagedEngine.Engine.Poll | crates/ai-engine-candle/src/paged/engine.rs:77-89 | the polling loop is the machine's admission of waiting requests |
| PagedEngine.Engine.EvictAll | crates/ai-engine-candle/src/paged/engine.rs:105-128 | the capacity sweep; every survivor has a slot for its next position |
| PagedEngine.Engine.DecodeBatch | crates/ai-engine-candle/src/paged/engine.rs:130-142 | the batch is built from the running sequences and decoded |
| PagedEngine.Engine.RetireAll | crates/ai-engine-candle/src/paged/engine.rs:160-178 | the bookkeeping loop: positions, messages, releases and survivors |
| PagedEngine.Engine.Abort | crates/ai-engine-candle/src/paged/engine.rs:136-158 | a failed step tells every sequence and returns every block |
| PagedEngine.Engine.DecodeRound | crates/ai-engine-candle/src/paged/engine.rs:130-178 | a decode round on the objects is the machine's decode |
| PagedEngine.Engine.Turn | crates/ai-engine-candle/src/paged/engine.rs:76-179 | one turn of the loop on the mutable objects is exactly one step of the machine |
| EngineRun.RunLoop | crates/ai-engine-candle/src/paged/engine.rs:62-180 | the loop on the engine object always returns once all clients are gone, within the work its arrivals brought; it has sent what the machine sends, and every request is settled |
| Sorting.SortAgreesExactly | crates/ai-engine-cluster/src/partition.rs:263-264 | two lists sort alike if and only if, for every key, they list its elements in the same order |
| Sorting.SortedPermutationIsSort | crates/ai-engine-cluster/src/partition.rs:295-296 | a sorted permutation with distinct keys is what the stable sort returns |
| Partition.MaxLayersExact | crates/ai-engine-cluster/src/partition.rs:127-141 | a layer count is within a node's cap exactly when its memory holds it; a node given no layer needs none |
| Partition.StageExact | crates/ai-engine-cluster/src/partition.rs:180-184 | a stage costs at most `q` exactly when 1000 times its layers are fewer than `q + 1` times the node's score |
| Partition.BestLeast | crates/ai-engine-cluster/src/partition.rs:168-192 | a table cell is the least cost over its admissible cut points and points at the first that reaches it |
| Partition.CostLower | crates/ai-engine-cluster/src/partition.rs:153-192 | no in-order split beats the table |
| Partition.RecoverAchieves | crates/ai-engine-cluster/src/partition.rs:200-208 | the cuts spelled out by the back pointers fit and cost what the table says |
| Partition.RecoverOptimal | crates/ai-engine-cluster/src/partition.rs:163-208 | they have the least slowest stage of all in-order contiguous splits within memory (a stage's cost in numbers: `Partition.StageExact`) |
| Partition.RecoverPrefixesOptimal | crates/ai-engine-cluster/src/partition.rs:163-208 | every prefix of them is optimal for its own nodes and layers |
| Partition.CapacityExactly | crates/ai-engine-cluster/src/partition.rs:143-151 | the summed capacity suffices exactly when some in-order split fits |
| Partition.FeasibleExactly | crates/ai-engine-cluster/src/partition.rs:143-198 | the last cell is finite exactly when every score is positive and the summed capacity suffices |
| Partition.AutoCorrect | crates/ai-engine-cluster/src/partition.rs:110-243 | the solver succeeds exactly when there are nodes, layers, positive scores and a split that fits, and then returns a best manifest; its second bail-out needs a zero score |
| Partition.FillCell | crates/ai-engine-cluster/src/partition.rs:171-191 | the innermost loop, its stage cost `layers * 1000 / score` included, computes the cell and touches no other |
| Partition.FillTables | crates/ai-engine-cluster/src/partition.rs:163-192 | the three loops fill both tables with the specified cells |
| Partition.Backtrack | crates/ai-engine-cluster/src/partition.rs:200-208 | walking the back pointers gives the recovered cuts |
| Partition.Assign | crates/ai-engine-cluster/src/partition.rs:210-232 | each node is linked to its neighbours; the first hosts the embedding, the last the output |
| Partition.AutoPartition | crates/ai-engine-cluster/src/partition.rs:110-243 | the whole function: its result, exact feasibility, optimality of the manifest and of all its prefixes, and its pace: some `w` such that every node has `layers * 1000 < (w + 1) * score` while every split that fits has a node with `layers * 1000 >= w * score` |
| Partition.AutoInNumbers | crates/ai-engine-cluster/src/partition.rs:110-243 | a solved manifest in the sizes alone: positive scores; contiguous ranges from 0 to `n_layers` over the nodes as listed, each within its memory, the first node's with the embedding; hosts and neighbours as linked |
| Partition.AutoUnbeaten | crates/ai-engine-cluster/src/partition.rs:110-243 | if any in-order split fits, in the sizes alone, the solver succeeds and keeps a pace, `layers * 1000 < (w + 1) * score` at every node, that the other split does not beat: a node of it has `layers * 1000 >= w * score` |
| Partition.PreimageInBytes | crates/ai-engine-cluster/src/partition.rs:377-394 | the bytes under the hash: model id, layer count, then for each node its id and both ends of its range, as eight bytes each |
| Agreement.IdLeTransitive | crates/ai-engine-cluster/src/partition.rs:264 | byte order of ids is transitive (with totality and antisymmetry beside it) |
| Agreement.AgreedManifest | crates/ai-engine-cluster/src/partition.rs:255-273 | solving the sorted capabilities (what the sorted list is: the next two rows); the result is a best manifest for that order |
| Agreement.IdLeExactly | crates/ai-engine-cluster/src/partition.rs:264 | an id is before another exactly when it is a beginning of it or smaller at the first byte where they differ |
| Agreement.CanonicalAscends | crates/ai-engine-cluster/src/partition.rs:263-264 | the sorted list holds the same capabilities in ascending order of id |
| Agreement.CanonicalOrderFree | crates/ai-engine-cluster/src/partition.rs:245-265 | with distinct ids, the order of discovery does not change the sorted list |
| Agreement.ManifestOrderFree | crates/ai-engine-cluster/src/partition.rs:245-273 | nodes that discovered the same peers in any order compute identical manifests, hash included |
| Agreement.CanonicalExactly | crates/ai-engine-cluster/src/partition.rs:263-264 | with repeated ids, two lists sort alike exactly when each id's capabilities come in the same order |
| Agreement.RepeatedIdsDisagree | crates/ai-engine-cluster/src/partition.rs:245-273 | distinct ids are needed: two orders of one id give different manifests |
| Agreement.PreimageExactly | crates/ai-engine-cluster/src/partition.rs:275-280 | for any two manifests, equal hash inputs mean the same model, layer count and layout exactly when the ids have the same lengths place by place |
| Agreement.SameNodesAgreeExactly | crates/ai-engine-cluster/src/partition.rs:275-280 | over one list of nodes, equal hash inputs and the same model, layer count and layout are the same thing |
| Agreement.HashCollision | crates/ai-engine-cluster/src/partition.rs:275-280 | equal hashes alone do not mean an identical assignment: a two-node and a one-node manifest share every hash |
| ManualPartition.RealisableExactly | crates/ai-engine-cluster/src/partition.rs:294-345 | some order of the claims covers every layer once and fits exactly when the sorted one does |
| ManualPartition.RealisableInNumbers | crates/ai-engine-cluster/src/partition.rs:298-345 | what an order of the claims must satisfy, in the sizes alone: non-empty ranges from 0 to `n_layers`, each within the memory of the first capability listed for its node, the first with the embedding |
| ManualPartition.CheckCover | crates/ai-engine-cluster/src/partition.rs:298-321 | the first gap, empty range or missing tail is reported; silence means exact cover |
| ManualPartition.CheckMemory | crates/ai-engine-cluster/src/partition.rs:323-345 | the first unknown or too small node is reported; silence means all fit |
| ManualPartition.LinkUp | crates/ai-engine-cluster/src/partition.rs:347-367 | the two passes link the assignments into a chain |
| ManualPartition.ManualPartition | crates/ai-engine-cluster/src/partition.rs:285-375 | accepts exactly the claims that in some order cover the layers and fit; chains them in that order; otherwise names the first fault |
| Ring.RingUnique | crates/ai-engine-cluster/src/partition.rs:44-62 | a manifest has at most one ring |
| Ring.PipelineOrder | crates/ai-engine-cluster/src/partition.rs:44-62 | on every manifest the walk ends, returns the ring when there is one and `None` only when there is none |
| Ring.RingIsPermutation | crates/ai-engine-cluster/src/partition.rs:44-62 | a ring visits every node exactly once, so repeated ids have no ring |
| Ring.ChainRingExactly | crates/ai-engine-cluster/src/partition.rs:210-232 | on constructed manifests the assignment order is the ring, ending at the output host, exactly when there is a node and no id repeats |
| Ring.ChainOrder | crates/ai-engine-cluster/src/partition.rs:44-62 | walking a constructed manifest returns the nodes in listed order, or `None` on repeated ids |
| Ring.ForwardPlan | crates/ai-engine-cluster/src/partition.rs:69-80 | the plan is the ring with the local hop marked |
| Ring.PlansDifferOnlyInWhere | crates/ai-engine-cluster/src/partition.rs:64-80 | plans of different nodes visit the same hops in the same order; a hop is local exactly when it is the planner; each has at most one such hop, and one exactly when the planner is in the manifest |
| Runtime.KvCacheSlot.Append | crates/ai-engine-runtime/src/kv_cache.rs:47-69 | appends exactly the new rows after the rows held |
| Runtime.KvCacheSlot.Read | crates/ai-engine-runtime/src/kv_cache.rs:72-83 | reads back the rows held, in order |
| Runtime.CausalMask | crates/ai-engine-runtime/src/arch/attention.rs:203-224 | the pushed mask rows open exactly the keys at or before each query's absolute position |
| Runtime.BlockForward | crates/ai-engine-runtime/src/arch/attention.rs:114-166 | append, read back, mask, attend: cache and output as specified |
| Runtime.RunStack | crates/ai-engine-runtime/src/arch/model.rs:219-221 | the block loop over caller-owned caches |
| Runtime.StackIsCausal | crates/ai-engine-runtime/src/arch/model.rs:209-224 | caches that hold a text's rows turn its causal activations into the causal activations of the layer after the stack, and grow to hold the new rows |
| Runtime.ForwardWithCaches | crates/ai-engine-runtime/src/arch/model.rs:209-224 | one logits vector per token fed; caches as specified |
| Runtime.ForwardIsCausal | crates/ai-engine-runtime/src/arch/model.rs:209-224 | those logits are the causal logits of their positions |
| Runtime.ChunksDoNotMatter | crates/ai-engine-runtime/src/arch/model.rs:209-224 | feeding a token list in any pieces gives the same logits at every position and the same caches |
| Peers.ServeIsolated | crates/ai-engine-cluster/src/peer.rs:216-259 | a frame touches the caches of its own request and no other |
| Peers.ServeReadsOwn | crates/ai-engine-cluster/src/peer.rs:216-301 | what a frame does, its reply included, depends on the caches of its own request alone |
| Peers.FailsExactly | crates/ai-engine-cluster/src/peer.rs:194-307 | when a peer fails a frame, and what its caches are then: untouched by a misplaced prompt or a wrong length, already grown when only the tail is missing; an end frame drops the request |
| Peers.Peer.OrInsert | crates/ai-engine-cluster/src/peer.rs:216-218 | a new request gets empty slots, one per block; a known one keeps its own |
| Peers.Peer.Run | crates/ai-engine-cluster/src/peer.rs:212-222 | the block loop on one request's slots leaves all other requests' slots as they were |
| Peers.Peer.Handle | crates/ai-engine-cluster/src/peer.rs:194-307 | every frame kind, with its reply and its errors |
| Cluster.HopServes | crates/ai-engine-cluster/src/coordinator.rs:209-255 | the contacted peer computes the causal activations of its layers, or the logits at the tail, and its slots grow by the tokens fed |
| Cluster.HopKeepsInStep | crates/ai-engine-cluster/src/coordinator.rs:209-255 | a hop of one request keeps all requests in step |
| Cluster.StepKeepsInStep | crates/ai-engine-cluster/src/coordinator.rs:158-255 | so does any event |
| Cluster.TokensAreLocal | crates/ai-engine-cluster/src/coordinator.rs:158-255 | in every interleaving a request's tokens are those one node generating alone samples, at most and in the end exactly `max_tokens` of them (one if that is 0) |
| Cluster.SlotsMatchNextFrame | crates/ai-engine-cluster/src/peer.rs:185-301 | every slot a peer keeps for a request is as long as the position of the next frame it gets for it, which fits |
| Cluster.HopsMakeProgress | crates/ai-engine-cluster/src/coordinator.rs:190-202 | after `h` hops a request stands at `min(h, max(1, max_tokens) * peers)` and has finished exactly when `h` is at least that, whatever else ran |
| Cluster.LocalGenerate | crates/ai-engine-cluster/tests/concurrent_requests.rs:65-96 | the single-node loop over `forward_with_caches` yields exactly the first `max_tokens` reference tokens (one if that is 0) |
| Coordinators.Missing | crates/ai-engine-cluster/src/coordinator.rs:88-96 | exactly the manifest nodes other than this one without a connection |
| Coordinators.HopKeepsServing | crates/ai-engine-cluster/src/coordinator.rs:209-255 | one hop seen by all connected peers: the request moves on, nothing else changes |
| Coordinators.Coordinator.RoutesWhole | crates/ai-engine-cluster/src/coordinator.rs:74-108 | no peer is missing exactly when every node of the pipeline can be routed to; the only hop then refused is the coordinator's own, without a connection to itself |
| Coordinators.Coordinator.HearingSparesOwn | crates/ai-engine-cluster/src/peer.rs:216-259 | no traffic of other requests touches a request's own caches on any peer |
| Coordinators.Coordinator.HearingElsewhere | crates/ai-engine-cluster/src/peer.rs:216-259 | what traffic makes of the other requests' caches does not depend on this request's |
| Coordinators.Coordinator.SendIsStep | crates/ai-engine-cluster/src/coordinator.rs:209-255 | a frame sent for any flow is one step of the net of flows |
| Coordinators.Coordinator.HearingIsStep | crates/ai-engine-cluster/src/coordinator.rs:209-255 | so is each delivery of traffic that carries another flow's next frame |
| Coordinators.Coordinator.HearingIsRun | crates/ai-engine-cluster/src/coordinator.rs:158-255 | traffic made of the other flows' frames, any number in any order, leaves the peers' caches as the hops of those flows leave the net |
| Coordinators.Coordinator.OwnFlowWaits | crates/ai-engine-cluster/src/coordinator.rs:158-255 | meanwhile this request's own flow stands still in that net |
| Cluster.HopsContinueRun | crates/ai-engine-cluster/src/coordinator.rs:158-255 | hops after a run are a longer run, so what is proved of every run holds amid that traffic |
| Coordinators.Coordinator.Send | crates/ai-engine-cluster/src/coordinator.rs:232-240 | one frame to one peer and its reply; no other peer changes |
| Coordinators.Coordinator.ForwardPass | crates/ai-engine-cluster/src/coordinator.rs:209-255 | head, middle hops and tail return the causal logits of the text, or name a node that cannot be reached |
| Coordinators.Coordinator.TokenLoop | crates/ai-engine-cluster/src/coordinator.rs:178-203 | the tokens are the single-node ones: at least one, at most `max_tokens`, fewer only if the consumer declined the last, and it wanted more after every other |
| Coordinators.Coordinator.Drive | crates/ai-engine-cluster/src/coordinator.rs:158-203 | whatever frames of other requests the peers handle between its own, each refusal has its exact cause and otherwise the tokens are the single-node ones, `max_tokens` of them (one if that is 0) unless the consumer stops before; the other requests' caches end up as their own frames alone would have left them |
| Mesh.PairMoves | crates/ai-engine-cluster/src/transport/mesh.rs:99-121 | a move takes a pair to its next stage or leaves it; both ends always agree on the stage |
| Mesh.RunSound | crates/ai-engine-cluster/src/transport/mesh.rs:80-136 | the invariant holds in every reachable state |
| Mesh.OneConnectionPerPair | crates/ai-engine-cluster/src/transport/mesh.rs:9-14 | over every run, the larger node has accepted the smaller exactly once if the pair is established and never otherwise, the smaller never the larger; a pair with a completed node has been connected exactly once |
| Mesh.CompleteHasAll | crates/ai-engine-cluster/src/transport/mesh.rs:123-135 | a completed node holds exactly one connection to each peer, under the peer's id |
| Mesh.NeverStuck | crates/ai-engine-cluster/src/transport/mesh.rs:95-121 | until every node is done some move can happen, although dials and accepts are each sequential |
| Mesh.MovesBounded | crates/ai-engine-cluster/src/transport/mesh.rs:80-136 | no run goes on for ever: at most `n * (5n + 1)` moves |
| Mesh.DialWithRetry | crates/ai-engine-cluster/src/transport/mesh.rs:31-50 | the first success within twenty attempts, or the last error |
| Gguf.Repeat | crates/ai-engine-runtime/src/gguf/metadata.rs:129-135 | the counting loop with a cursor parses the specified list |
| Gguf.ReadArray | crates/ai-engine-runtime/src/gguf/metadata.rs:120-175 | `parse_array` by its loops |
| Gguf.ReadDesc | crates/ai-engine-runtime/src/gguf/tensor_desc.rs:24-77 | `parse_tensor_desc` by its loop |
| Gguf.StringReads | crates/ai-engine-runtime/src/gguf/metadata.rs:31-43 | a written string is read back, whatever follows |
| Gguf.ManyReads | crates/ai-engine-runtime/src/gguf/metadata.rs:120-175 | a written list is read back element by element, consuming exactly its bytes |
| Gguf.ValueReads | crates/ai-engine-runtime/src/gguf/metadata.rs:58-111 | every value of every type is read back, whatever follows |
| Gguf.KvReads | crates/ai-engine-runtime/src/gguf/metadata.rs:46-56 | so is every key with its value |
| Gguf.DescReads | crates/ai-engine-runtime/src/gguf/tensor_desc.rs:24-77 | so is every tensor descriptor |
| Gguf.HeaderReads | crates/ai-engine-runtime/src/gguf/header.rs:14-28 | so is the header |
| Gguf.FormatNumbers | crates/ai-engine-runtime/src/gguf/metadata.rs:58-175 | the numbers that file and parser share: magic, version, value, element and tensor types |
| Gguf.FormatOrder | crates/ai-engine-runtime/src/gguf/metadata.rs:31-175 | what precedes what: lengths, types and counts, and in how many bytes |
| Bytes.LeDigits | crates/ai-engine-runtime/src/gguf/metadata.rs:31-111 | byte `k` of a number is its digit of weight 256 to the `k` |
| GgufFile.PadAligns | crates/ai-engine-runtime/src/loader.rs:480-483 | the loader's rounding lands where the writer's padding ends, on the next multiple of 32 |
| GgufFile.AppendAligned | crates/ai-engine-runtime/scripts/generate_gguf_q4_0_fixture.py:243-249 | data is appended at the next multiple of 32 |
| GgufFile.WriteFile | crates/ai-engine-runtime/scripts/generate_gguf_q4_0_fixture.py:290-306 | the assembled file is header, metadata, descriptors, padding and data |
| GgufFile.DataAtOffset | crates/ai-engine-runtime/scripts/generate_gguf_q4_0_fixture.py:243-274 | each tensor's data sits at its recorded offset, a multiple of 32, in the finished data section |
| GgufFile.LoadGguf | crates/ai-engine-runtime/src/loader.rs:460-499 | the scan, the alignment and the lookup table, with its errors |
| GgufFile.FileRoundTrip | crates/ai-engine-runtime/src/loader.rs:460-499 | loading a written file recovers exactly the keys written, each with the value written last for it, and exactly the known tensor names, each with the descriptor and the bytes of its last tensor |
| GgufFile.EveryTensorFound | crates/ai-engine-runtime/src/loader.rs:485-499 | the lookup table holds exactly the known names, each with the descriptor and data of the last tensor of that name |
| Layout.PermutationsInvert | crates/ai-engine-runtime/src/loader.rs:405-436 | the loader's head permutation undoes the writer's, for every head count and even head size |
| Layout.SelfInverseExactly | crates/ai-engine-runtime/src/loader.rs:402-404 | the two are one self-inverse permutation exactly for head sizes 2 and 4 |
| Layout.LoadedEntry | crates/ai-engine-runtime/src/loader.rs:411-435 | where the loader takes entry `[i][j]` from in the file's flat list |
| Layout.WrittenEntry | crates/ai-engine-runtime/scripts/generate_gguf_q4_0_fixture.py:80-98 | that is the place where the writer put entry `[j][i]` |
| Layout.PairsFromHalves | crates/ai-engine-runtime/scripts/generate_gguf_q4_0_fixture.py:80-98 | in the file, rows `2k` and `2k + 1` of a head are the checkpoint's rows `k` and `m + k` of it |
| Layout.HalvesFromPairs | crates/ai-engine-runtime/src/loader.rs:411-435 | in the model, columns `k` and `m + k` of a head are the file's rows `2k` and `2k + 1` of it |
| Layout.LayoutPreserved | crates/ai-engine-runtime/src/loader.rs:405-436 | the Q4_0 path and the dense path put every weight in the same place |
| BlockQuant.QuantizeBlocks | crates/ai-engine-runtime/scripts/generate_gguf_q4_0_fixture.py:101-125 | the writer's block loop |
| BlockQuant.EncodedInNumbers | crates/ai-engine-runtime/scripts/generate_gguf_q4_0_fixture.py:101-125 | the bytes of a block: the scale, then in byte `j` the low half for weight `j` and the high half for `j + 16`, each code biased by 8, nearest to its weight with ties to even, 15 beyond seven and a half scales |
| BlockQuant.BlockScaleIsTight | crates/ai-engine-runtime/scripts/generate_gguf_q4_0_fixture.py:106-112 | no weight exceeds eight scales and some weight is eight; 1 for a block of zeros |
| BlockQuant.SizeIsEncoded | crates/ai-engine-runtime/src/loader.rs:623-634 | for every Q4_0 shape the loader takes exactly as many bytes as the encoder makes of that many weights, and refuses the shape when they fill no whole blocks |
| BlockQuant.DecodeEncoded | crates/ai-engine-runtime/src/gguf/q4_0.rs:85-98 | every code survives encoding and decoding, in its place |
| BlockQuant.StoredError | crates/ai-engine-runtime/scripts/generate_gguf_q4_0_fixture.py:110-116 | a weight comes back within one block scale, and within half of it if and only if it is at most seven and a half scales |
| BlockQuant.LargestIsClipped | crates/ai-engine-runtime/scripts/generate_gguf_q4_0_fixture.py:110-116 | where the half fails: a positive weight that is the largest of its block gets code 7 and comes back exactly one scale too small |
| BlockQuant.Dequantize | crates/ai-engine-runtime/src/gguf/q4_0.rs:47-110 | the size checks, the block loop and the transpose loop |
| BlockQuant.ToRowMajor | crates/ai-engine-runtime/src/gguf/q4_0.rs:100-107 | the transpose loop is the matrix transpose |
| BlockQuant.QkWeightLoads | crates/ai-engine-runtime/src/loader.rs:405-436 | from checkpoint to model, the weight at `[i][j]` is the stored image of the checkpoint's weight `[j][i]` |
| Quant.CodesSurvive | crates/ai-engine-runtime/src/quant.rs:193-198 | packing and sign extension lose no code |
| Quant.StoredInNumbers | crates/ai-engine-runtime/src/quant.rs:185-206 | in the tensor's own bytes and scales: the signed half byte of a weight times its group's scale is the nearest multiple to it, ties away from zero, and is what comes back |
| Quant.ScaleIsTight | crates/ai-engine-runtime/src/quant.rs:167-183 | no weight of a group exceeds seven scales, and one is seven scales in magnitude and comes back exactly; 1 for a group of zeros |
| Quant.FourteenthOfLargest | crates/ai-engine-runtime/src/quant.rs:150-266 | every weight comes back within a fourteenth of the largest magnitude of its group |
| Quant.QuantisationError | crates/ai-engine-runtime/src/quant.rs:150-266 | every weight comes back within half its group's scale (how large that is: `Quant.ScaleIsTight`) |
| Quant.QuantiseAgain | crates/ai-engine-runtime/src/quant.rs:150-266 | quantising what came back stores the same codes and scales |
| Quant.QuantizeFrom | crates/ai-engine-runtime/src/quant.rs:150-209 | the loops store the scale of every group and the codes of every weight (which ones, in numbers: `Quant.StoredInNumbers` and `Quant.ScaleIsTight`) |
| Quant.Dequantize | crates/ai-engine-runtime/src/quant.rs:240-266 | the loop yields code times scale everywhere |
| Quant.Transpose | crates/ai-engine-runtime/src/quant.rs:89-104 | the 8-bit transpose moves entries and rounds nothing |
| Sse.Parse | crates/ai-engine-openai/src/stream.rs:7-39 | on every list of chunks the buffering loop yields what the bytes yield in one piece (what that is: the `SseRoundTrip` rows), and ends the same way |
| Sse.FrameEndStays | crates/ai-engine-openai/src/stream.rs:41-43 | more bytes do not move the end of a frame that is there |
| Sse.ProvidersAgree | crates/ai-engine-anthropic/src/stream.rs:12-44 | the two parsers differ only on streams that a `[DONE]` line ends |
| SseRoundTrip.RoundTrip | crates/ai-engine-anthropic/src/stream.rs:12-44 | a stream of well-formed frames, any lines in each, LF or CR LF, with or without the space, yields exactly the data written, in order, all data lines of each frame, and ends as the bytes run out |
| SseRoundTrip.NamedRoundTrip | crates/ai-engine-anthropic/src/stream.rs:12-44 | any list of events, each as an `event:` line, a `data:` line and a blank one, is read back whole |
| SseRoundTrip.StreamStops | crates/ai-engine-openai/src/stream.rs:26-36 | the first `[DONE]` line, or data that is not JSON, ends the stream there: the events before it and nothing of what follows in its frame or after |
| SseRoundTrip.StreamNotText | crates/ai-engine-openai/src/stream.rs:22-25 | a frame that is not UTF-8 ends the stream before any of its lines is read |

## Left out

- Floating-point rounding, softmax, RoPE and RMSNorm numerics, device code: arbitrary functions and exact reals instead.
- QUIC, TLS, certificates, mDNS, postcard encoding and SHA-256: frames arrive decoded, the hash is a parameter.
- UTF-8 and JSON validity, whitespace trimming and the GGUF name map are parameters of the parsers.
- The library's cached forward pass behind `CandleModel::generate` is a class here: index 0 starts a text, any other index
  must be the number of tokens cached, the logits are the causal ones, and any call may fail.
- `f16` block scales of Q4_0 are a pair of functions; the error bound asks that the scale survives them.
- Cache reclamation in the cluster: coordinators send no end frame, so nothing is claimed about freed slots.
- The leader and worker star path: it walks nodes in configuration order; the coordinator covers the same ground.
- Overflow of a cache slot, and of machine integers in sizes and offsets: excluded by preconditions.
- Mesh dials that fail are retries without a move; that they succeed within twenty attempts is assumed of the network.
- Dense (non-Q4_0) Q and K weights: the loader un-permutes them in the other orientation; only Q4_0 is claimed.
- Q8 quantisation and dequantisation, Q4_1 and Q6_K decoding: the same shape as the Q4 proofs, or single expressions.
- HTTP routes, configuration, health probing, metrics, chat templates and the tokenizer: no part in these results.
