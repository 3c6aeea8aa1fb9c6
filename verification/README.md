# Verified model of the training and evaluation core

A Dafny model of the parts of this repository in which several pieces of code have to agree with each other, with
proofs that they do. Verify everything with `dafny verify dfyconfig.toml`.

- **Weight transfer.** Named tensors are cut into chunks (`WeightChunks`), packed into buckets (`BucketPacking`,
  `BucketAlignment`) and moved to all rollout ranks through two buffers per rank (`Buffers`): along a chain of
  one-sided reads (`NixlRelay`), by broadcast (`NcclBroadcast`), or along a chain with completion flags
  (`MooncakeRelay`; `MooncakeRepeat` and `MooncakeMixup` start it with flags left up). Each engine is a state machine
  with one program counter per rank; a read or broadcast is split into its beginning, its single bytes and its end, so
  a buffer overwritten too early would be seen. Safety, absence of deadlock, termination and delivery are proved for
  every interleaving, any number of ranks and any weights; `WeightTransfer` composes them with splitting and merging.
  `NixlTopology` and `KimiBuckets` cover the chain's set-up and the modulo-rank packing.
- **Megatron and Hugging Face layouts.** The pipeline partition search (`PipelineShards`), layer renumbering and
  output files (`LayerTiling`), the interleaving of q, k and v across tensor-parallel shards (`QkvLayout`), and
  stacking the experts of a mixture-of-experts checkpoint (`MoeStacking`).
- **DataProto rows.** Every operation selects rows, the same for tensors and for numpy arrays, although the two
  libraries compute them differently (`DataRows`, `DataChunks`, `DataRepeat`).
- **Rewards and selection.** The tau-bench environment and the tool call that must not show the oracle (`TauEnv`),
  checkpoint selection (`JassSelection`), outcome-anchored judge rewards (`JudgeReward`, `JudgePool`) and the pass^k
  estimate (`PassHatK`).

Loops of the source are methods proved against a specification function; the properties of that function are lemmas
beside it. `Outcomes` holds the option and result types, `Sequences`, `TorchRows` and `Division` the sequence
functions, torch's row cutting and the arithmetic that several models share. Errors that the source raises are values
of `Result`.

Places where the code does not do what its surroundings suggest are stated as such, with the exact condition: the
partition search finds nothing for 5 layers on 4 stages (`Search`, `FiveOnFour`) and may leave stages uneven
(`EvenExactly`); a dict without layers shifts all later layer numbers (`RenumberExactly`); Mooncake's completion flags
survive a transfer, and a second one over them can overwrite a buffer still being read (`SoundExactly`,
`RepeatExactly`, `SecondCorrupts`); weights of mixed element sizes can be packed where they cannot be viewed
(`NixlEndToEnd`, `MixedElementSizes`); merging attention shards can succeed and scramble rows (`MergeTpExactly`,
`ThreeHeadsOnTwo`); judging trajectories at once can give one step two scores (`EqualKeysExactly`, `TwoTrajectories`);
chunking with padding enabled can fail (`ChunkExactly`, `FiveInFour`); `unfold_column_chunks` without split keys fails
on any numpy column although its documentation gives it a meaning (`UnfoldExactlyAligned`); required outputs with a
comma can never be satisfied (`SayableExactly`, `RewardableExactly`); a single rollout worker cannot form a NIXL chain
(`ChecksExactly`); results repeated for one trial push pass^k above 1 (`TermBounds`, `PassOne`); and a judge reply
whose number is of the wrong type escapes the fallback (`Judge`, `NullEscapes`).

## Model

| member | source | states |
|---|---|---|
| `WeightTransfer.NixlEndToEnd` | verl/verl/checkpoint_engine/nixl_checkpoint_engine.py:371-526 | split, pack, chain relay and merge composed: in every interleaving, for any number of ranks and any list of weights of distinct names, every run is finite, and one that cannot go on has brought every rollout rank exactly the non-empty weights, bytes included, in order, if and only if the packing puts each weight that fits a bucket at a multiple of its element size; until then a rank's merge fails exactly when it meets a weight that is not |
| `WeightTransfer.NcclEndToEnd` | verl/verl/checkpoint_engine/nccl_checkpoint_engine.py:230-368 | the same for the double-buffered broadcast, under every transport between one in which rank 0 runs ahead freely and one in which a broadcast waits for all participants |
| `WeightTransfer.MooncakeEndToEnd` | verl/verl/checkpoint_engine/mooncake_checkpoint_engine.py:158-315 | whole weights that fit a bucket each reach every rollout rank unchanged and in order, empty ones included, from cleared flags and from any others of which no awaited one is up |
| `BucketAlignment.OneElementSize` | verl/verl/checkpoint_engine/base.py:563-568 | with one element size for all weights, which divides the bucket size, every packing is aligned |
| `BucketAlignment.MixedElementSizes` | verl/verl/checkpoint_engine/base.py:563-568 | two bytes before a number of four bytes in a bucket of six: the packing is accepted and the view of the second fails |
| `BucketAlignment.MooncakeViews` | verl/verl/checkpoint_engine/mooncake_checkpoint_engine.py:284-288 | Mooncake gives all weights one element size and keeps its two buckets in one buffer: all its views succeed exactly when the element size divides the bucket size or a single bucket is sent |
| `NixlRelay.StepInv` | verl/verl/checkpoint_engine/nixl_checkpoint_engine.py:371-526 | every step of every rank keeps the invariant: which bucket is in which buffer, what the queues between neighbours hold, what a read under way has copied |
| `NixlRelay.RelaySafety` | verl/verl/checkpoint_engine/nixl_checkpoint_engine.py:170-173 | in every run no notify-key assertion fails, what a rollout rank has yielded is a prefix of the sender's chunks, and a finished rank has yielded all of them |
| `NixlRelay.NoOverwrite` | verl/verl/checkpoint_engine/nixl_checkpoint_engine.py:394-436 | no step of any run writes into a buffer that is on offer to the next rank, being read by it, or being yielded from |
| `NixlRelay.NoDeadlock` | verl/verl/checkpoint_engine/nixl_checkpoint_engine.py:463-526 | in every reachable state some rank can step until all have finished |
| `NixlRelay.RunsEnd` | verl/verl/checkpoint_engine/nixl_checkpoint_engine.py:394-526 | every step uses up a measure over all ranks, so a run is no longer than the measure at its start |
| `NixlRelay.RelayDelivers` | verl/verl/checkpoint_engine/nixl_checkpoint_engine.py:371-526 | every run is finite, and one that cannot be continued has delivered the sender's chunk sequence to every rollout rank |
| `NixlRelay.Arrived` | verl/verl/checkpoint_engine/nixl_checkpoint_engine.py:211-235 | a completed read leaves the expected bucket whole in the receive buffer although its bytes travelled one at a time while the source rank went on |
| `NixlRelay.SomeRun` | verl/verl/checkpoint_engine/nixl_checkpoint_engine.py:371-526 | every valid set-up has a start and a run from it that delivers everything, so none of these statements is about nothing |
| `NcclBroadcast.StepInv` | verl/verl/checkpoint_engine/nccl_checkpoint_engine.py:248-368 | every step of the sender, of a broadcast and of a receiver keeps the invariant |
| `NcclBroadcast.BroadcastSafety` | verl/verl/checkpoint_engine/nccl_checkpoint_engine.py:49-99 | in every run each side has at most one broadcast outstanding, no step writes a buffer in use, a yielded view keeps its bytes while it is yielded, and the yields are a prefix of the sender's chunks |
| `NcclBroadcast.NoDeadlock` | verl/verl/checkpoint_engine/nccl_checkpoint_engine.py:314-368 | in every reachable state something can step until all ranks have finished, even when no byte leaves rank 0 before every receiver has joined the broadcast and rank 0's wait lasts until every receiver's has ended |
| `NcclBroadcast.RunsEnd` | verl/verl/checkpoint_engine/nccl_checkpoint_engine.py:248-368 | a measure over sender and receivers drops with every step |
| `NcclBroadcast.BroadcastDelivers` | verl/verl/checkpoint_engine/nccl_checkpoint_engine.py:230-368 | a run that cannot be continued, under the most reluctant such transport or any more willing one, has delivered every chunk to every rollout rank |
| `NcclBroadcast.SomeRun` | verl/verl/checkpoint_engine/nccl_checkpoint_engine.py:230-368 | every valid set-up has a start and a run from it that delivers everything |
| `MooncakeRelay.StepInv` | verl/verl/checkpoint_engine/mooncake_checkpoint_engine.py:149-315 | every step of every rank keeps the invariant tying half-buffers, completion flags and descriptions |
| `MooncakeRelay.RefillWaits` | verl/verl/checkpoint_engine/mooncake_checkpoint_engine.py:180-227 | a half-buffer is refilled only when the next rank has signalled the bucket that was in it, and nothing else still refers to it |
| `MooncakeRelay.FlagRaisedOnce` | verl/verl/checkpoint_engine/mooncake_checkpoint_engine.py:252-315 | a completion flag is never raised while it is still up |
| `MooncakeRelay.RelaySafety` | verl/verl/checkpoint_engine/mooncake_checkpoint_engine.py:158-315 | yields are a prefix of the sender's chunks, all of them at the end; when the sender's single final wait returns, rank 1 has finished every bucket |
| `MooncakeRelay.NoDeadlock` | verl/verl/checkpoint_engine/mooncake_checkpoint_engine.py:149-315 | in every reachable state some rank can step until all have finished |
| `MooncakeRelay.RunsEnd` | verl/verl/checkpoint_engine/mooncake_checkpoint_engine.py:158-315 | a measure over all ranks drops with every step |
| `MooncakeRelay.RelayDelivers` | verl/verl/checkpoint_engine/mooncake_checkpoint_engine.py:142-147 | a run that cannot be continued has delivered everything, and exactly which completion flags it leaves up, since nothing clears them |
| `MooncakeRelay.SomeRun` | verl/verl/checkpoint_engine/mooncake_checkpoint_engine.py:158-315 | every valid set-up has a start and a run from it that delivers everything |
| `MooncakeRepeat.SoundExactly` | verl/verl/checkpoint_engine/mooncake_checkpoint_engine.py:149-156 | for any flags up at the start and any greedy packing: in all runs no half-buffer in use or not yet signalled is refilled and the sender ends after rank 1, exactly when no awaited slot starts up; awaited are the slots of the third bucket on, and at rank 0 that of the last bucket |
| `MooncakeRepeat.DownDelivers` | verl/verl/checkpoint_engine/mooncake_checkpoint_engine.py:158-315 | from such a start every run is finite, and one that cannot be continued delivers every bucket and adds its own flags to those that were up |
| `MooncakeRepeat.SecondExactly` | verl/verl/checkpoint_engine/mooncake_checkpoint_engine.py:84-86 | the same condition for a second transfer on the flags of a first, in numbers of buckets and ranks |
| `MooncakeRepeat.FirstLeaves` | verl/verl/checkpoint_engine/mooncake_checkpoint_engine.py:149-156 | the flags of which SecondExactly speaks are those that every complete first transfer leaves |
| `MooncakeRepeat.RepeatExactly` | verl/verl/checkpoint_engine/mooncake_checkpoint_engine.py:158-315 | sending the same number of buckets again is sound exactly for at most two buckets, or three to a single rollout rank; then the flags end as they began and everything is delivered, so it stays sound for all later transfers |
| `MooncakeRepeat.SecondOverwrites` | verl/verl/checkpoint_engine/mooncake_checkpoint_engine.py:180-193 | for every greedy packing of four or more buckets: a whole transfer, then a run of the same transfer on its flags in which the sender writes a half-buffer that rank 1 still reads |
| `MooncakeMixup.YieldsWrong` | verl/verl/checkpoint_engine/mooncake_checkpoint_engine.py:180-193 | with the flag of the sender's first slot up at the start and three buckets or more: a run in which rank 1 yields the first entry of the first bucket with the third bucket's bytes |
| `MooncakeMixup.SecondCorrupts` | verl/verl/checkpoint_engine/mooncake_checkpoint_engine.py:149-156 | a whole transfer of an even number of buckets, at least four, and then such a run of the same transfer on its flags |
| `MooncakeMixup.FourBytes` | verl/verl/checkpoint_engine/mooncake_checkpoint_engine.py:180-193 | four weights of one byte: sent a second time, rank 1 receives the third's byte under the first's name |
| `MooncakeRepeat.SecondEndsEarly` | verl/verl/checkpoint_engine/mooncake_checkpoint_engine.py:149-156 | after a transfer of an even number of buckets, one of a single bucket has a run whose sender ends before rank 1 has begun |
| `WeightChunks.SplitWeightChunks` | verl/verl/checkpoint_engine/base.py:517-543 | the loop yields exactly the chunk sequence of the specification, for every bucket size above zero |
| `WeightChunks.MergeWeightChunks` | verl/verl/checkpoint_engine/base.py:546-585 | the merging loop, writing into one buffer in place, gives the result of the specification on every chunk sequence, failed assertions included |
| `WeightChunks.RoundTrip` | verl/verl/checkpoint_engine/base.py:517-585 | merging the split of any weight list gives the list without its zero-byte weights, and none of the five assertions can fail |
| `WeightChunks.ConservesExactly` | verl/verl/checkpoint_engine/base.py:546-585 | a merge that does not fail emits the bytes it was given, in order, those of the open weight included, exactly when every large weight is completed by a chunk that ends where its buffer ends; otherwise it emits more |
| `WeightChunks.MergeConservesBytes` | verl/verl/checkpoint_engine/base.py:546-585 | so it is when chunks of one name agree on the size of their tensor |
| `WeightChunks.DisagreeingChunks` | verl/verl/checkpoint_engine/base.py:546-585 | an instance where they do not: two chunks calling one tensor four and three bytes long complete a weight that ends in a byte of uninitialised memory |
| `WeightChunks.MergePlaced` | verl/verl/checkpoint_engine/base.py:563-568 | the place a chunk has in its bucket decides only whether a small weight can be viewed: with all of them at multiples of their element size the merge is the same as without places, otherwise it fails where it would have succeeded |
| `WeightChunks.WholeExactly` | verl/verl/checkpoint_engine/base.py:559-569 | a chunk of a whole small weight is accepted exactly when no weight is open, its bytes are as many as its shape calls for, and its place is none or a multiple of the element size |
| `BucketPacking.PackBuckets` | verl/verl/checkpoint_engine/nccl_checkpoint_engine.py:252-296 | the packing loop posts the buckets of the specification |
| `BucketPacking.PackSplit` | verl/verl/checkpoint_engine/nccl_checkpoint_engine.py:252-283 | for distinct names no assertion of the loop fails; every posted bucket fits, tiles a prefix of the buffer without gap or overlap and holds no name twice; only an empty input gives an empty bucket; the buckets hold the chunks in order; numBuckets * size <= 2 * total + size |
| `BucketPacking.PackWhole` | verl/verl/checkpoint_engine/mooncake_checkpoint_engine.py:180-216 | without chunk splitting packing succeeds exactly when every weight fits a bucket |
| `BucketPacking.NoRepeat` | verl/verl/checkpoint_engine/nixl_checkpoint_engine.py:397-434 | a chunk that still fits never shares its bucket with one of the same name |
| `NixlTopology.ChecksExactly` | verl/verl/checkpoint_engine/base.py:401-404 | with one metadata entry per worker the topology passes the length checks exactly for at least one actor and at least two rollout workers |
| `NixlTopology.BuildsExactly` | verl/verl/checkpoint_engine/nixl_checkpoint_engine.py:289-305 | the topology can be built exactly when there is an entry for the first actor and as many as there are rollout workers |
| `NixlTopology.OneChain` | verl/verl/checkpoint_engine/nixl_checkpoint_engine.py:288-331 | then every worker's assertions hold and the links form the single chain 0, 1, .., W |
| `NixlTopology.OneRolloutFails` | verl/verl/checkpoint_engine/nixl_checkpoint_engine.py:298-304 | with one rollout worker the slice from -1 + 1 is the whole list and the length check fails |
| `KimiBuckets.NamedTensorBuckets` | verl/verl/checkpoint_engine/kimi_checkpoint_engine.py:37-63 | a rank's buckets are its share in order, none empty, over the limit only for a lone tensor, and closed only when the next tensor did not fit |
| `KimiBuckets.PutExactly` | verl/verl/checkpoint_engine/kimi_checkpoint_engine.py:59 | putting a tensor into a bucket: a name it has keeps its place and gets the new tensor, a new one goes to the end |
| `KimiBuckets.DealtOnce` | verl/verl/checkpoint_engine/kimi_checkpoint_engine.py:47-50 | tensor i is in the share of rank i mod world only, at position i div world |
| `KimiBuckets.ShareAt` | verl/verl/checkpoint_engine/kimi_checkpoint_engine.py:47-50 | a share holds nothing but the tensors of its residue |
| `PipelineShards.GetDynamicPipelineShards` | verl/verl/model_merger/megatron_model_merger.py:57-98 | the search returns the closed form: the errors in their order, and the middle stage of ceil(layers / stages) |
| `PipelineShards.Search` | verl/verl/model_merger/megatron_model_merger.py:70-90 | which middle sizes the loop accepts, and that it accepts any exactly when layers mod stages is 0 or layers mod stages + 2 * (layers div stages) reaches stages |
| `PipelineShards.FoundExactly` | verl/verl/model_merger/megatron_model_merger.py:57-98 | over all inputs: a result is found exactly when 1 <= stages <= layers and layers mod stages is 0 or, with twice layers div stages, reaches stages |
| `PipelineShards.LeastIsCeil` | verl/verl/model_merger/megatron_model_merger.py:90-98 | the first of the least imbalanced candidates is the one whose middle stages are the rounded-up average |
| `PipelineShards.ShardsOptimal` | verl/verl/model_merger/megatron_model_merger.py:57-98 | the result splits all layers into positive stages, the middle ones of the rounded-up average, the first and last equal but for an odd layer that the last takes, and no split into as many stages has a smaller largest stage |
| `PipelineShards.FiveOnFour` | verl/verl/model_merger/megatron_model_merger.py:92-98 | 5 layers on 4 stages: nothing is found although an even split exists |
| `PipelineShards.EvenSplit` | verl/verl/model_merger/megatron_model_merger.py:57-65 | whenever there are as many layers as stages a split with stages differing by at most one exists |
| `PipelineShards.EvenExactly` | verl/verl/model_merger/megatron_model_merger.py:57-65 | the stages found differ by at most one exactly when layers mod stages is 0 or at least stages - 2 |
| `LayerTiling.RangesTile` | verl/scripts/converter_hf_to_mcore.py:576-578 | ranges started at the cumulative sums of any widths cover every place once |
| `LayerTiling.StagesTile` | verl/verl/model_merger/megatron_model_merger.py:431-457 | with the stages found, local-to-global renumbering is a bijection onto the layers, and the ranks' file numbers are 0 .. n - 1 without clash or gap, n the layer count below 30 layers and twice it from there on |
| `LayerTiling.RenumberLayers` | verl/verl/model_merger/megatron_model_merger.py:360-384 | the nested loops rename as specified; when the dicts describe 0 .. width - 1 and no width is 0, local layer l of dict k comes out as start + the widths before k + l and a key of no layer stays as it is; from start 0 the numbers written are exactly 0 .. sum of widths - 1, each for one layer of one dict |
| `LayerTiling.RenumberExactly` | verl/scripts/legacy_model_merger.py:613-663 | for any widths, the number a local layer gets is at least start + the layers before its dict + its local number, and equal to that exactly when no earlier dict is without layers |
| `LayerTiling.EmptyStageShifts` | verl/scripts/legacy_model_merger.py:613-663 | for instance after a dict without layers, layer 0 is numbered 1 |
| `QkvLayout.SplitTensors` | verl/verl/model_merger/megatron_model_merger.py:330-354 | de-interleaving a whole matrix is merging its single shard, errors included |
| `QkvLayout.MergeAcrossTp` | verl/scripts/legacy_model_merger.py:534-562 | the nested loops over shards and chunks compute the specification, errors included |
| `QkvLayout.QkvRoundTrip` | verl/scripts/converter_hf_to_mcore.py:155-161 | for all head counts with key/value heads dividing heads and every tensor-parallel size dividing the key/value heads, merging the row shards of the converter's matrix gives back q, k and v |
| `QkvLayout.WholeRoundTrip` | verl/verl/model_merger/megatron_model_merger.py:330-354 | the same for the unsharded matrix |
| `QkvLayout.MergeTpExactly` | verl/scripts/legacy_model_merger.py:534-562 | for any shards: merging succeeds exactly when the head counts divide, the first shard divides by the heads of a group plus two, and the rows of every shard come apart in equal pieces of a group's rows |
| `QkvLayout.ThreeHeadsOnTwo` | verl/scripts/legacy_model_merger.py:534-562 | it can succeed when the tensor-parallel size does not divide the key/value heads, and then mixes rows of q, k and v |
| `QkvLayout.MergeGateUp` | verl/scripts/legacy_model_merger.py:523-533 | collecting the halves of every shard in a loop gives the specification, a shard that cannot be halved included |
| `QkvLayout.HalvesRoundTrip` | verl/scripts/legacy_model_merger.py:523-533 | shards that stack their part of gate on their part of up merge to gate and up |
| `QkvLayout.HalvesExactly` | verl/verl/model_merger/megatron_model_merger.py:316-324 | the unpacking in two halves fails exactly on a shard of a single row |
| `MoeStacking.MergeExperts` | verl/scripts/veomni/moe_merge.py:95-110 | the pop-and-stack loops succeed exactly when every expert entry is there with equal shapes and at least one expert, and then leave every other entry as it was |
| `MoeStacking.MergeableExactly` | verl/scripts/veomni/moe_merge.py:95-110 | for rectangular tensors without empty dimensions: merging succeeds exactly when every slot of its layers has all experts, at least one, all of one shape |
| `MoeStacking.SplitExperts` | verl/scripts/veomni/moe_split.py:75-83 | the unstacking loops succeed exactly when every stacked entry met has enough rows, and what they leave at every key |
| `MoeStacking.RoundTrip` | verl/scripts/veomni/moe_merge.py:95-110 | splitting the merged state gives back the whole original state exactly when it had no stacked entry in the layers that are split |
| `MoeStacking.MergeThenSplit` | verl/scripts/veomni/moe_split.py:75-83 | the two scripts in a row return the original state exactly when it had no stacked entry in the layers that are split, and fail whenever merging fails |
| `DataRows.PadBy` | verl/verl/protocol.py:87-95 | the padding loop gives rows 0 .. n - 1 repeated cyclically, for any pad size |
| `DataRows.Pad` | verl/verl/protocol.py:74-99 | row i of the result is row i mod n, the length divides, and fewer rows than the divisor are added; an empty batch is left alone |
| `DataRows.Unpad` | verl/verl/protocol.py:102-106 | drops the last rows, all of them if there are not enough |
| `DataRows.PadRoundTrip` | verl/verl/protocol.py:74-106 | unpadding undoes padding on tensors and arrays |
| `DataRows.SliceIsRows` | verl/verl/protocol.py:675-718 | a slice selects the same rows of tensors and arrays |
| `DataRows.ConcatRows` | verl/verl/protocol.py:917-961 | concatenating selections selects by the concatenated indices |
| `DataRows.ConcatTwo` | verl/verl/protocol.py:917-961 | two batches with the same columns are joined column by column, the first's rows before the second's |
| `DataRows.ConcatNames` | verl/verl/protocol.py:917-961 | a column that the first batch lacks is an error |
| `DataRows.RowsOfRows` | verl/verl/protocol.py:635-673 | selecting twice is selecting once |
| `DataChunks.ChunkRows` | verl/verl/protocol.py:864-903 | torch's chunk and numpy's array_split at the cumulative sizes cut the same consecutive rows |
| `DataChunks.ChunkConcat` | verl/verl/protocol.py:864-961 | concatenating all chunks is the original |
| `DataChunks.ChunkExactly` | verl/verl/protocol.py:873-903 | the exact condition under which chunk succeeds, padding enabled or not |
| `DataChunks.NoChunks` | verl/verl/protocol.py:864-903 | no chunks at all can be asked for only of nothing, and only with padding enabled |
| `DataChunks.EqualChunks` | verl/verl/protocol.py:873-877 | when the length divides chunk succeeds and all chunks are equal |
| `DataChunks.FiveInFour` | verl/verl/protocol.py:880-895 | with padding enabled 5 rows in 4 chunks fail: rounding up leaves 3 pieces |
| `DataChunks.SplitConcat` | verl/verl/protocol.py:905-914 | concatenating the pieces of split is the original exactly when it has rows |
| `DataChunks.FutureConcat` | verl/verl/protocol.py:1192-1228 | the chunks of a future, got one by one and concatenated, are the concatenated outputs |
| `DataChunks.FutureExactly` | verl/verl/protocol.py:1192-1228 | each chunk of a future can be got exactly when the concatenated outputs can be chunked |
| `DataRepeat.RepeatRows` | verl/verl/protocol.py:971-1013 | both repeat modes select the same rows of tensors and arrays |
| `DataRepeat.RepeatIdxAt` | verl/verl/protocol.py:971-1013 | row i is row i div times when interleaved, row i mod n when stacked |
| `DataRepeat.SampleLevelRows` | verl/verl/protocol.py:1054-1100 | with one count per row, tensors and arrays repeat the same rows in place; a batch without rows is refused |
| `DataRepeat.OneCount` | verl/verl/protocol.py:1054-1100 | a single count for other than one row repeats every row where there are no tensors; where there are it is refused, unless the count is 0 or there are no columns |
| `DataRepeat.WrongCounts` | verl/verl/protocol.py:1054-1100 | any other number of counts is refused as soon as there is a column |
| `DataRepeat.RepeatByCounts` | verl/verl/protocol.py:1054-1100 | every row is selected as often as its count says, and no other row is |
| `DataRepeat.UnfoldExactlyAligned` | verl/verl/protocol.py:1015-1052 | unfolding succeeds exactly when arrays come with a key set and every split width divides; then row r of every column comes from row r div pieces |
| `DataRepeat.UnfoldFails` | verl/verl/protocol.py:1015-1052 | for instance it fails on a row of three to be split in two, and on an array without split keys |
| `DataRepeat.UnfoldAt` | verl/verl/protocol.py:1022-1030 | row i * pieces + j of a split column is piece j of row i |
| `DataRepeat.FlattenRegroup` | verl/verl/protocol.py:1022-1030 | folding the pieces of a row again gives the row |
| `DataRepeat.Proto.Padding` | verl/verl/protocol.py:849-862 | in place: copies of the first row, or of the last one, are appended; a column without rows is refused, a batch without columns is not |
| `DataRepeat.Proto.Reorder` | verl/verl/protocol.py:963-969 | in place, column by column: the rows at the given indices, negative ones counted from the end; for every other index it fails, and what it leaves then |
| `DataRepeat.ReorderInverse` | verl/verl/protocol.py:963-969 | reordering by a permutation and then by its inverse changes nothing |
| `TauEnv.Env.constructor` | tau-bench/tau_bench/envs/base.py:45-76 | a new environment holds freshly loaded data, no actions and the task asked for |
| `TauEnv.Env.Reset` | tau-bench/tau_bench/envs/base.py:78-88 | restores exactly that state |
| `TauEnv.Env.Step` | tau-bench/tau_bench/envs/base.py:90-119 | the response and the whole state after one action, among them that an ending action leaves the oracle's data and the replayed actions behind |
| `TauEnv.Env.CalculateReward` | tau-bench/tau_bench/envs/base.py:124-164 | the reward is 1 exactly when the data hashes as the replay of the ground truth from a fresh load does and every required output was said |
| `TauEnv.OutputsSaid` | tau-bench/tau_bench/envs/base.py:144-161 | the nested search finds exactly the outputs said in some response |
| `TauEnv.Env.Execute` | src/toolagent/verl_integration/tools.py:45-70 | the response and the whole state after a tool call |
| `TauEnv.SameAsStep` | src/toolagent/verl_integration/tools.py:45-70 | a tool call returns the observation, reward and done flag of the environment's own step, except for a terminal tool that is not registered |
| `TauEnv.ToolShown` | src/toolagent/verl_integration/tools.py:45-70 | what the model is shown of every tool call, and what the call leaves of the data: the tool's own, its exception's, or unchanged for a tool there is not |
| `TauEnv.LeakExactly` | src/toolagent/verl_integration/tools.py:45-70 | a call leaves the data as the tool left it and the history as the old one plus this action exactly unless a response ends the episode through the plain step |
| `TauEnv.EpisodeExact` | src/toolagent/verl_integration/tools.py:45-70 | over whole episodes with any terminal calls: the data is the effect of the episode's own actions and the history is those actions |
| `TauEnv.OracleInvisible` | src/toolagent/verl_integration/tools.py:46 | non-interference: replacing the task's ground truth and outputs changes no observation, done flag, data or history of an episode |
| `TauEnv.SameUntilDone` | src/toolagent/verl_integration/tools.py:45-70 | up to and including its end, an episode gets the responses that stepping the environment gives |
| `TauEnv.EpisodeReward` | tau-bench/tau_bench/envs/base.py:124-164 | the reward of any action after any quiet episode, in terms of the actions: 1 when the action is terminal or makes the user stop, the data of the episode's actions hashes as the replayed ground truth's does, and every output was said in some response; else 0 |
| `TauEnv.GroundTruthRewarded` | tau-bench/tau_bench/envs/base.py:124-142 | doing what the ground truth asks, its terminal calls left out, and then a terminal call earns the reward of a task without required outputs exactly when that call leaves the data's hash alone |
| `TauEnv.ReplayedExactly` | tau-bench/tau_bench/envs/base.py:134-137 | the replay of a list with one more action is that of the list and then this action, unless it is a call of a terminal tool; the replay of nothing is nothing |
| `TauEnv.AskedIsRewarded` | tau-bench/tau_bench/envs/base.py:124-142 | for a ground truth without terminal calls: making exactly its calls and then a terminal one that leaves the hash alone earns the reward |
| `TauEnv.OnlyAskedIsRewarded` | tau-bench/tau_bench/envs/base.py:124-142 | and every quiet episode whose data hashes differently from the effect of the ground truth's calls on a fresh load earns 0 |
| `TauEnv.SayableExactly` | tau-bench/tau_bench/envs/base.py:148-157 | a required output is said by some response exactly when it has no comma, since commas are dropped from the responses only |
| `TauEnv.SaidAnywhere` | tau-bench/tau_bench/envs/base.py:148-157 | an output without commas is said by every response that holds it, whatever stands before and after, commas included |
| `TauEnv.CommasDropped` | tau-bench/tau_bench/envs/base.py:152 | every comma of a response is dropped and nothing else |
| `TauEnv.CaseAndCommas` | tau-bench/tau_bench/envs/base.py:150-152 | for instance an output in other letter case and with its digits grouped by commas is said |
| `TauEnv.HeardExactly` | tau-bench/tau_bench/envs/base.py:90-96 | the user simulator answers all responses so far, in order, and no tool call |
| `TauEnv.UnsayableNeverRewarded` | tau-bench/tau_bench/envs/base.py:124-164 | a task with a comma in some output gets reward 0 after every action of every episode, by tool calls or by plain steps |
| `TauEnv.RewardableExactly` | tau-bench/tau_bench/envs/base.py:124-164 | with a terminal action that leaves the data alone and a user who does not stop, some episode earns reward 1 exactly when no required output has a comma |
| `TauEnv.Rollout.Execute` | src/toolagent/verl_integration/tools.py:84-164 | the rollout's bookkeeping after a call, decodable or not: counts, reward, done flag, history entry; no reward is shown |
| `JassSelection.CheckpointScore` | src/toolagent/training/b_ndsr.py:182-208 | the accumulated score in quarter points is that of the trace plus that of the checkpoint |
| `JassSelection.SelectedIsAdmissible` | src/toolagent/training/b_ndsr.py:211-234 | a selected checkpoint is replayable, after-read only if no before-write one of its trace is replayable, and best of its kind; none is selected exactly when there is none to select |
| `JassSelection.SelectedByFlags` | src/toolagent/training/b_ndsr.py:164-179 | in the flags alone: nothing is selected from a trace with one of the five errors or no successful read; from any other a before-write checkpoint if it has one, failing that an after-read one, and that only if it has not written |
| `JassSelection.SelectedScoresMost` | src/toolagent/training/b_ndsr.py:211-234 | of the checkpoints of its trace and kind, none scores more than the selected one and none before it scores as much |
| `JassSelection.CheckpointWeights` | src/toolagent/training/b_ndsr.py:182-208 | what each feature of a checkpoint adds to the score, one by one |
| `JassSelection.TraceWeights` | src/toolagent/training/b_ndsr.py:182-208 | what each feature of a trace adds, one by one, a read tool counting once however often it was used |
| `JassSelection.SelectBestFailedPrefix` | src/toolagent/training/b_ndsr.py:237-249 | the strict-greater scan returns the first of the best candidates |
| `JassSelection.ScanExactly` | src/toolagent/training/b_ndsr.py:237-249 | said of the traces: the scan returns nothing exactly when nothing can be selected from any trace, and else what is selected from the first of the traces whose selection scores most |
| `JassSelection.BuildCandidates` | src/toolagent/training/jass.py:78-115 | the list is the stable descending sort of one candidate per selectable trace, truncated like a Python slice and renumbered by position |
| `JassSelection.CandidateOfEach` | src/toolagent/training/jass.py:78-115 | when the limit is no less than the number of traces, every trace from which something can be selected has exactly one candidate |
| `JassSelection.SortHolds` | src/toolagent/training/jass.py:110 | the sort is a permutation |
| `JassSelection.SortDescends` | src/toolagent/training/jass.py:110 | the sort is descending |
| `JassSelection.SortKeepsTies` | src/toolagent/training/jass.py:110 | candidates of equal score keep their order |
| `JassSelection.HeadOfSort` | src/toolagent/training/jass.py:110-126 | the head of the sorted list is the first of the best, ties included |
| `JassSelection.SortHeadIsScan` | src/toolagent/training/jass.py:110-137 | sort, truncate and take the head agrees with the scan exactly when the limit keeps some candidate, negative limits included |
| `JassSelection.HeuristicSelection` | src/toolagent/training/jass.py:118-137 | the fallback choice and its decision record |
| `JassSelection.Judge` | src/toolagent/training/jass.py:217-238 | the try block, on every decoded reply: which candidate it chooses, and which reply raises an exception that the caller does not catch; the number is checked before the confidence is converted |
| `JassSelection.NumberedReply` | src/toolagent/training/jass.py:217-238 | a reply that names number k chooses k exactly when k is in range and the confidence converts, and escapes exactly when k is in range and the confidence is null, a list, an object or an integer beyond all doubles; a reply without a number counts as number 0 |
| `JassSelection.OtherReply` | src/toolagent/training/jass.py:217-238 | a reply without a usable number chooses nothing, and which of these replies escape |
| `JassSelection.NumberLike` | src/toolagent/training/jass.py:220 | which values int() takes for the number k, among them reals rounded towards zero |
| `JassSelection.OverflowsExactly` | src/toolagent/training/jass.py:223-232 | an integer confidence overflows exactly from the middle between the largest double and the next power of two on |
| `JassSelection.SelectCheckpoint` | src/toolagent/training/jass.py:205-251 | which candidate is returned, when the fallback is used, and that an exception escapes exactly for an enabled judge with candidates and a reply of an uncaught call error, no object, a number that is null, a list, an object or infinite, or a number in range with a confidence that float() refuses by type or range |
| `JassSelection.NullEscapes` | src/toolagent/training/jass.py:220 | a number of null escapes; a number out of range is caught even when the confidence would escape |
| `JassSelection.CandidatesAdmissible` | src/toolagent/training/jass.py:205-251 | whatever is returned is admissible for its own trace, and a candidate's number is its position |
| `JassSelection.CandidatesByFlags` | src/toolagent/training/jass.py:78-115 | no candidate comes from a trace with an error or without a read; it is a before-write one exactly when its trace has such a checkpoint, and always when its trace has written |
| `JassSelection.DropsTheWorst` | src/toolagent/training/jass.py:111 | truncation drops nothing that scores more than what it keeps |
| `JudgeReward.ExtractSteps` | src/toolagent/training/llm_judge.py:174-199 | the steps put together again are the well-formed messages from the first assistant turn on |
| `JudgeReward.FromTurn` | src/toolagent/training/llm_judge.py:174-199 | everything from the first assistant turn on is kept, in order, when it is well formed |
| `JudgeReward.MalformedIgnored` | src/toolagent/training/llm_judge.py:183-184 | a malformed message is as good as none |
| `JudgeReward.SelectKeySteps` | src/toolagent/training/llm_judge.py:212-220 | an in-order selection, each step at most once: every write, the step before it unless an equal one is kept, nothing else; all steps if none writes |
| `JudgeReward.WritesExactly` | src/toolagent/training/llm_judge.py:202-220 | a step writes exactly when one of its calls has, by its own name or failing that by its function entry, the name of a write tool, or any name at all when * is one |
| `JudgeReward.ScoreSteps` | src/toolagent/training/llm_judge.py:302-329 | on a cache nobody else writes to, for any judge answers: a step's score is its key's entry in the final cache, old entries never change, only new keys are asked for, and all scores stay in [0, 1] |
| `JudgeReward.SameKeyExactly` | src/toolagent/training/llm_judge.py:223-225 | two steps share a cache entry exactly when their tasks and calls are equal and their texts are, or agree up to the limit |
| `JudgePool.PoolSafety` | src/toolagent/training/llm_judge.py:419-433 | several workers on one cache, in every schedule and for all answers: all scores and cache entries stay in [0, 1], and a finished trajectory has a score for every step |
| `JudgePool.PoolAnchored` | src/toolagent/training/llm_judge.py:160-171 | so in every schedule a judged failure gets alpha times the mean of its scores, and at most alpha |
| `JudgePool.EqualKeysExactly` | src/toolagent/training/llm_judge.py:419-433 | in all schedules and for all answers equal cache keys get equal scores exactly when there is one worker or no key outside the starting cache occurs in two judged trajectories |
| `JudgePool.TwoTrajectories` | src/toolagent/training/llm_judge.py:419-433 | two trajectories with one common step: the first, which makes it twice, gets the scores 0 and 1 for it |
| `JudgePool.PoolEnds` | src/toolagent/training/llm_judge.py:419-433 | every schedule is finite, and one that cannot go on has judged every trajectory or a call has raised for it |
| `JudgeReward.BlendAnchored` | src/toolagent/training/llm_judge.py:160-171 | a failure gets at most alpha, a success exactly 1 |
| `JudgeReward.BlendIsMean` | src/toolagent/training/llm_judge.py:160-171 | a failure gets alpha times the mean of its scores when they lie in [0, 1], of the clamped ones in any case, and 0 without scores |
| `JudgeReward.MeanJoins` | src/toolagent/training/llm_judge.py:168 | the mean of one score is that score, and means of joined lists join by weight |
| `JudgeReward.DensifyRewards` | src/toolagent/training/llm_judge.py:436-459 | in place on the reward matrix: every failing row changes at its last response token only, the last true of the mask or without one the last nonzero entry, and gets there its blended reward, or its total when unjudged; success rows stay |
| `JudgeReward.OneLast` | src/toolagent/training/llm_judge.py:453-459 | the index written is the last true of the mask or, without a mask, the last nonzero entry, or else the end of the row, and no other index is |
| `JudgeReward.NewTotal` | src/toolagent/training/llm_judge.py:436-459 | a failing row's new total is its dense reward exactly when its old total sat at the reward index |
| `JudgeReward.OutcomeAnchored` | src/toolagent/training/llm_judge.py:398-459 | judged failures end in [0, alpha] and strictly below every success, unjudged totals and success rows are unchanged |
| `PassHatK.CountSuccesses` | tau-bench/tau_bench/run.py:188-193 | the dictionary holds every task once and its number of successful results |
| `PassHatK.CountsExactly` | tau-bench/tau_bench/run.py:181-193 | one more result adds 1 to its own task's count, and to that of all, when its reward is within a millionth of 1, and nothing to any count otherwise |
| `PassHatK.CountIsOnes` | tau-bench/tau_bench/run.py:181-193 | with rewards of 0 and 1 a task's count is the number of its results with reward 1 |
| `PassHatK.DisplayMetrics` | tau-bench/tau_bench/run.py:180-199 | the average and pass^k for every k up to the number of trials; no result at all is an error |
| `PassHatK.SubsetsCounted` | tau-bench/tau_bench/run.py:198 | the binomial coefficient counts the k-subsets |
| `PassHatK.TermIsFraction` | tau-bench/tau_bench/run.py:194-199 | with one result per task and trial each term is the fraction of the k-subsets of trials in which all passed |
| `PassHatK.TermBounds` | tau-bench/tau_bench/run.py:198 | a term is at most 1 exactly when no more results passed than there are trials |
| `PassHatK.PassHatShrinks` | tau-bench/tau_bench/run.py:194-199 | pass^k is in [0, 1] and never grows with k |
| `PassHatK.PassExactly` | tau-bench/tau_bench/run.py:194-199 | pass^k for any k as one fraction, and that it is at most 1 exactly when the tasks' k-subsets of successes together are no more than tasks times the k-subsets of the trials |
| `PassHatK.PassOne` | tau-bench/tau_bench/run.py:194-199 | pass^1 is the number of successes over tasks times trials, so it is at most 1 exactly when all successes together number at most tasks times trials, whatever is repeated or missing |
| `PassHatK.PassOneIsSuccessRate` | tau-bench/tau_bench/run.py:194-199 | with exactly one result per task and trial pass^1 is the success rate |
| `PassHatK.PassOneIsAverage` | tau-bench/tau_bench/run.py:184-199 | and with rewards of 0 and 1 it is the reported average |
| `PassHatK.RepeatedTrial` | tau-bench/tau_bench/run.py:184-199 | two successful results for one trial make pass^1 come out as 2 |

## Left out

- ZMQ, Ray, CUDA, NCCL, RDMA and torch internals: a queue between two ranks is first-in first-out and loses nothing, a notification arrives only after its read has completed, broadcasts are matched in the order they are issued, and reads and broadcasts move single bytes in any order. Everything else about timing is left open.
- The senders and receivers of the three weight-transfer engines run at once, so they are state machines over their steps rather than classes with methods; their sequential loops (split, pack, merge) are methods.
- NixlRelay: notify keys are the bucket numbers, which stand for the unique identifiers drawn; only the next rank notifies, so that the loop variable reassigned in `get_notification` (verl/verl/checkpoint_engine/nixl_checkpoint_engine.py:137) makes no difference.
- MooncakeRelay: the branch for a description without a slot address is not modelled. A later transfer starts from empty queues and ranks at their beginning; only the flags carry over.
- NcclBroadcast: a mapped buffer and its stream synchronisation are one buffer. The hops between receivers inside a broadcast are left out.
- WeightChunks: freshly allocated memory has arbitrary but uniform content; dtypes are element sizes, and a view fails exactly when the byte count does not match or the bytes start at no multiple of the element size. A rank whose merge has failed goes on relaying in the model.
- The HCCL engine, which is the double buffering of NCCL without splitting, and the rest of the Kimi engine.
- KimiBuckets.NamedTensorBuckets: sizes are after the conversion to the rollout dtype; of repeated names, which the dictionary merges, only `PutExactly` speaks.
- DataRows: `meta_info` and its merging are left out, and so is the check that the keys of later batches are among those of the first in any order: all batches list the same keys in the same order. Columns of a batch without tensors are assumed to have equal length, which the constructor checks only when there are tensors.
- DataChunks.ChunkRows: a batch with tensors but without rows is cut as torch cuts a tensor without rows; the tensordict library is not part of this model.
- DataRepeat: a row is a sequence along the second dimension, so splitting a one-dimensional column is not expressible.
- TauEnv: ground-truth lists contain no response to the user, because each would call the user simulator and could end the replay by computing a reward again, without bound. Tools and the user simulator are functions, so repeated calls agree. A response action always has its content. Lower case is ASCII only. Deep copies are values. `record_tool_transition` is not part of this model.
- TauEnv.Rollout.Execute: the branch for an exception that escapes the environment itself is left out, because in this model only tools raise, and the environment catches those.
- TauEnv.Env.Reset: a random task index is left out.
- JassSelection: prompts, message truncation and the text fields of a decision are left out. How a text is decoded is left out: a reply is an exception of the call, no JSON, or a JSON value; a text that holds a number is one whose conversion succeeds.
- JudgeReward: prompts, parsing and hashing are left out; a tool call is its two names and the rest of it as text, and a `function` entry that is no object is left out; a cache key is the triple that is hashed; metrics are left out. A call that raises an exception which is not caught ends its trajectory, and which replies do that is left out, as is the cancelling of the trajectories still waiting then. No claim that a cached score equals a fresh one: the key omits the observations the prompt includes.
- PassHatK and the rewards use exact arithmetic; rounding is left out.
- QkvLayout: biases are not modelled separately from the rows of the matrix, and row and column concatenation of the other weights is left out as a plain join.
- LayerTiling: key names are reduced to the layer number they contain; the tensors behind them are treated in QkvLayout.
- MoeStacking: key names are structured, and shapes are those of rectangular tensors.
- String-level name mapping, configuration, argument parsing, tool registries, agents, plotting and uploads.
