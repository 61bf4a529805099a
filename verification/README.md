# Verified model of the MiMo-V2.6 serving kit

A Dafny model of the parts of the kit where a fast or patched form has to agree with a simple one: the attention
kernels and their launches, the batch partition, the NVFP4 cache, the drafter's stale-page redirect, the tool-call
parser, the fused-QKV loader, the KV page unification and the telemetry handshake. Each part is modelled in the form
the kit gives it (loops, classes and arrays where the source updates state, functions where it computes a value).
What it is proved against is a definition of its own where there is one to give: dense softmax attention, the nearest
representable value, the least common multiple page, the rendered call. Where the source itself is the rule (the guard's
token steps, the copy handshake, one loaded half), a function states that rule and the results are proved about every run
of it. What such a function decides (which keys a row sees, where a value ends, in which order pages rank, what a record
holds) is stated once more without it, by positions, counts or fields.

`dafny verify dfyconfig.toml` checks everything.

## Parts

| files | what they model |
|---|---|
| `Softmax.dfy`, `UnifiedAttention.dfy`, `SplitKv.dfy` | the Triton tile loop, its split-KV form and the reducer; the reference is one dense masked softmax with an optional sink |
| `LaunchGrid.dfy`, `Launch2D.dfy`, `Launch3D.dfy` | the grid, the lane masks and the two whole launches, programs in any order |
| `TileRing.dfy`, `PrefillKernel.dfy` | the CUDA kernel: eight warps, two stages and barriers as a transition system, and each warp's online softmax on what it read |
| `DiffKvBackend.dfy` | the decode/prefill partition, the q-blocks, block tables and the dequantized scratch |
| `ModelRows.dfy`, `CachedRows.dfy`, `DenseAttention.dfy` | a layer's query rows, cached rows in both stored forms, their dense attention, and that attention written out as sums over the keys a row sees |
| `TritonPath.dfy`, `CudaPath.dfy`, `BackendForward.dfy` | the generic launch, the custom prefill kernel and the scratch path on a partition, and `forward` over all of them |
| `ServedCache.dfy` | the NVFP4 cache end to end: a batch is written, then `forward` reads it |
| `Schedules.dfy` | the orders and interleavings the launches are proved for exist |
| `Nvfp4.dfy`, `Nvfp4Cache.dfy`, `Nvfp4Error.dfy` | e2m1 and e4m3, the packed row, the writer's launch, the readers, the reconstruction error |
| `StalePages.dfy` | the page pool shared by drafter and other layers, and the redirect |
| `ToolCalls.dfy`, `ToolCallTheorems.dfy`, `ToolCallStreaming.dfy`, `ToolCallDict.dfy` | the streaming guard and the argument converter over tokens, and what the dictionary of a growing text keeps |
| `QkvShard.dfy`, `Requantize.dfy`, `QkvRequantize.dfy`, `QkvPairing.dfy` | resharding the fused QKV rows, requantizing them, pairing weights with scales across calls |
| `PageUnify.dfy` | the common page and what every layer becomes |
| `Telemetry.dfy` | one asynchronous copy in flight and the metadata beside it |
| `IndexMath.dfy`, `RealMath.dfy`, `Options.dfy` | integer division and flat indices, magnitudes, optional values |

## Conventions

- Arithmetic is over `real`; the exponential is any function with exp(a + b) = exp(a) exp(b) and exp > 0
  (`Softmax.Exponential`), and minus infinity is a constructor. In `PrefillKernel` the finite mask value -1e30 is a
  sentinel: far below every real score, equal to itself, so a tile without a real maximum counts its masked keys with
  weight 1, as the kernel's arithmetic does.
- vLLM's helpers are not in the repository. `softmax_step`, `init_softmax_M`, `compute_tile_loop_bounds`,
  `find_seq_idx`, `split_decodes_and_prefills`, `scaled_quantize` and the cache-spec classes are modelled as their
  call sites and the comments there require; for the round trips newline trimming is any function, for streamed values
  it drops at most one newline at each end; softcap and ALiBi are any function of the key position and the raw score.
- e2m1 follows section 5.3.3 of the OCP Microscaling Formats (MX) Specification v1.0, half precision section 3.4 of
  IEEE 754; the conversion to e4m3 is any that returns a nearest finite value and, of two equally near, the even one.
- Whole tags are single tokens, because the lexer delivers them whole.

## Findings

Properties that hold only under a condition, proved with the exact condition.

- Without a GQA group that divides BLOCK_M, an output row is stored twice as soon as a sequence spans two q-blocks
  (`LaunchGrid.ExactlyOnceIff`, `LaunchGrid.DoubleStore`). Both stores carry the same value, so the result is still
  dense attention (`Launch2D.Launch`).
- The stale-page redirect makes every read exact if and only if a page is no longer than the window minus one plus the
  draft rows, or pages are whole reader tiles (`StalePages.RedirectSafeIff`); otherwise the redirected page itself has
  unwritten positions the reader loads. Without the redirect only whole tiles are safe (`StalePages.PlainSafeIff`).
- Streamed arguments are not always a prefix of the final ones, contrary to the claim at
  `overlay/patch_qwen3_toolparse.py:22`. While no name repeats, there are two ways to lose what was shown
  (`ToolCallDict.StreamStableIff`): a last value in progress that ends in a blank, or in two newlines after something,
  loses that end when the next token is `</function>`, unless a stripped line is already at its end
  (`ToolCallStreaming.ShownStableIff`, `ToolCallStreaming.ShownShrinks`); and a nameless argument that looked closed is
  dropped again when text follows. A repeated name replaces the value shown under it (`ToolCallDict.RepeatReplaces`):
  what a continuation keeps then is said exactly, name by name (`ToolCallDict.KeptIff`), and nothing but an empty value
  is safe from every continuation (`ToolCallDict.EverStableIff`). Raw values are stable
  (`ToolCallStreaming.PrefixStable`).
- The row check of the QKV loader rounds down, so a row count with a remainder passes it and the chunk path then
  returns other rows than the gather path (`QkvShard.SliceIsGatherIff`); and the scale-row count does not always tell
  the two scale grids apart: an accepted shape with the per-chunk number of scale rows fits both, with different scales,
  if and only if it has several chunks that are not whole blocks and their unused tails add up to less than a block and
  the remainder (`QkvShard.AmbiguousIff`; `QkvShard.CountIsAmbiguous` and `QkvShard.RestIsAmbiguous` are two such
  shapes).
- An NVFP4 group is read back as zeros if and only if its amax / 6 is at most half the smallest positive e4m3 value
  (`Nvfp4Error.GroupFlushedIff`).
- What a telemetry frame carries is of the step its record names only if it was set in time: its data if and only if a
  forward was recorded between the installation of that step's batch and the queueing of its copy, and likewise, each for
  itself, its count of sampled rows and its acceptance counts (`Telemetry.FrameOwnStepIff`, for whole runs
  `Telemetry.AllFramesOwnStepIff`); at every rate some run without such a forward sends one step's data under another
  step's batch (`Telemetry.SkippedForwardMispairs`).

## Model

| member | source | states |
|---|---|---|
| Softmax.NarrowRange | patches/triton_unified_attention_diffkv.py:226-244 | a key range that holds every unmasked position carries all the softmax mass and moment, so pruned tiles lose nothing |
| Softmax.SameWeight | patches/triton_unified_attention_diffkv.py:226-244 | any two ranges holding every unmasked position carry the same mass and moment |
| Softmax.MaskedRange | patches/triton_unified_attention_diffkv.py:325-327 | masked positions add nothing to mass or moment |
| Softmax.Rescale | patches/triton_unified_attention_diffkv.py:334-335 | rescaling a running sum to a new reference and adding a tile's share adds exactly the tile's weight |
| Softmax.TileProductShift | patches/triton_unified_attention_diffkv.py:344-347 | descaling P V by the V descale equals descaling V first, whatever masked lanes hold |
| UnifiedAttention.DotScale | patches/triton_unified_attention_diffkv.py:292-320 | scaling the score by the K descale is scaling K |
| UnifiedAttention.SeesItself | patches/triton_unified_attention_diffkv.py:303-313 | every row sees its own key, so the dense softmax is well defined |
| UnifiedAttention.TilesCover | patches/triton_unified_attention_diffkv.py:219-240 | the causal and sliding-window tile bounds of a block keep every key any of its rows sees |
| UnifiedAttention.TilesTight | patches/triton_unified_attention_diffkv.py:226-240 | and no tile of the range lies wholly outside what its rows may see |
| UnifiedAttention.VisibleIsLoaded | patches/triton_unified_attention_diffkv.py:337-343 | a visible key is inside the load mask and its V is not zeroed by the window edge of the block's first row |
| UnifiedAttention.KernelLane | patches/triton_unified_attention_diffkv.py:286-347 | under the kernel's own mask a lane's score is the reference logit, and a visible lane's V is the reference value over the V descale |
| UnifiedAttention.TileStep | patches/triton_unified_attention_diffkv.py:334-347 | one tile keeps L exp(M) and acc exp(M) equal to the partial sums, also when the tile is fully masked, and M the least upper bound |
| UnifiedAttention.TileLoop | patches/triton_unified_attention_diffkv.py:212-217 | after the loop over any tile range (M, L, acc) stand for exactly that key range plus the start value |
| DenseAttention.SeenIff | patches/triton_unified_attention_diffkv.py:303-320 | a key has a finite score in the reference iff it is not after the row's own position and, with a window, one of the `window` keys that end there |
| DenseAttention.RowIs | patches/triton_unified_attention_diffkv.py:286-391 | each element of the dense reference is the softmax average of V over exactly those keys, of the KV head the query head belongs to, with the head's own softcap, ALiBi and sink |
| SplitKv.Attend2D | patches/triton_unified_attention_diffkv.py:242-391 | a 2D program's acc / L is dense masked softmax attention with the sink, for any tiling, window and mask |
| SplitKv.WriterAndReducerAgree | patches/triton_unified_attention_diffkv.py:168-171 | the writer's guard holds exactly for the segments the reducer's mask selects, at least one and never more than the launch has |
| SplitKv.TilesPerSegmentIs | patches/triton_unified_attention_diffkv.py:169 | a segment has the least number of tiles with which the segments hold every key |
| SplitKv.EachKeyInOneSegment | patches/triton_unified_attention_diffkv.py:426-430 | each key lies in the span of exactly one active segment |
| SplitKv.MaskedPartial | patches/triton_unified_attention_diffkv.py:364-366 | reporting minus infinity when L is 0 changes nothing the partial stands for, and is done only for a span without mass |
| SplitKv.SegmentCovers | patches/triton_unified_attention_diffkv.py:226-240 | the part of a segment's tiles that survives pruning still stands for the segment's whole span |
| SplitKv.SlotIsRowMajor | patches/triton_unified_attention_diffkv.py:352-379 | the scratch is a [tokens, heads, segments] tensor in row-major order |
| SplitKv.SlotsDisjoint | patches/triton_unified_attention_diffkv.py:352-379 | scratch slots of different (token, head) pairs are disjoint and inside the buffer |
| SplitKv.SegmentProgram | patches/triton_unified_attention_diffkv.py:349-379 | a segment program stores the partial of its own span in its own slot, or nothing when its span starts past the sequence |
| SplitKv.ReducedMass | patches/triton_unified_attention_diffkv.py:440-445 | the rescaled sum over stored partials is the mass of their spans plus the sink |
| SplitKv.ReducedMoment | patches/triton_unified_attention_diffkv.py:454-460 | the rescaled output sum is the moment of their spans |
| SplitKv.Merged | patches/triton_unified_attention_diffkv.py:440-461 | merging the active partials gives dense attention, with a finite maximum and a non-zero denominator |
| SplitKv.Reduce | patches/triton_unified_attention_diffkv.py:418-468 | the reducer returns dense attention once the active slots hold their partials |
| SplitKv.Attend3D | patches/triton_unified_attention_diffkv.py:168-171 | segment programs in any order on uninitialized scratch, then the reducer: dense attention, other slots untouched |
| LaunchGrid.BlocksFit | patches/triton_unified_attention_diffkv.py:591 | the q-blocks of a sequence end before the slots of the next one |
| LaunchGrid.GridHoldsBlocks | patches/triton_unified_attention_diffkv.py:591 | tokens / BLOCK_Q + sequences is at least the sum of the per-sequence q-blocks |
| LaunchGrid.FindSeq | patches/triton_unified_attention_diffkv.py:161-163 | the binary search returns the sequence whose slots contain the q-block |
| LaunchGrid.EveryRowProduced | patches/triton_unified_attention_diffkv.py:175-190 | some unmasked lane of some program in the grid stores each (row, head) |
| LaunchGrid.ExactlyOnceIff | patches/triton_unified_attention_diffkv.py:537-591 | every output is stored, and by one lane only, iff the GQA group divides BLOCK_M or no sequence spans two q-blocks |
| LaunchGrid.DoubleStore | patches/triton_unified_attention_diffkv.py:589 | otherwise the first row of a second q-block is also a tail lane of the first |
| LaunchGrid.BlockHoldsGroup | patches/triton_unified_attention_diffkv.py:537-589 | every launch shape holds a whole GQA group, and a power-of-two group always divides it |
| LaunchGrid.SplitIff | patches/triton_unified_attention_diffkv.py:562-577 | the split-KV grid is taken iff its buffers are there, the batch need not be invariant, there are few sequences, and queries are single tokens or short ones of a global layer that fit the buffers |
| LaunchGrid.BlockMIs | patches/triton_unified_attention_diffkv.py:537-589 | the rows of a block for single-token, short split and long queries |
| LaunchGrid.SplitFitsScratch | patches/triton_unified_attention_diffkv.py:562-577 | a split-KV launch has no more tokens than scratch rows |
| Launch2D.Program | patches/triton_unified_attention_diffkv.py:161-391 | one program writes dense attention to the outputs of its lanes and nothing else |
| Launch2D.Launch | patches/triton_unified_attention_diffkv.py:589-591 | the whole 2D launch, its programs in any order, leaves dense attention in every row and head |
| Launch3D.SlotsApart | patches/triton_unified_attention_diffkv.py:435-439 | different (row, head, segment) triples use different scratch slots |
| Launch3D.RunWork | patches/triton_unified_attention_diffkv.py:349-379 | one lane of a segment program fills its slot and disturbs no partial of any other row, head or segment |
| Launch3D.SomeWork | patches/triton_unified_attention_diffkv.py:168-191 | every (row, head, segment) is the work of some program in the grid |
| Launch3D.RunSegments | patches/triton_unified_attention_diffkv.py:349-379 | after the segment grid, in any order, every active slot holds its partial |
| Launch3D.Launch | patches/triton_unified_attention_diffkv.py:554-577 | the whole split-KV launch with its reducer grid leaves dense attention in every row and head |
| TileRing.OneOwner | kernels/attention/prefill_attn.cu:56-67 | each chunk of a tile belongs to one warp, thread and pass |
| TileRing.AddressesDisjoint | kernels/attention/prefill_attn.cu:84-107 | different chunk elements have different addresses inside a stage |
| TileRing.RunKeepsInv | kernels/attention/prefill_attn.cu:152-235 | every interleaving of the warps' stores, reads and barriers keeps the ring invariant |
| TileRing.NoRace | kernels/attention/prefill_attn.cu:232-234 | no warp may store into a stage another may still read |
| TileRing.FinishedWarpSawEverything | kernels/attention/prefill_attn.cu:157-235 | a finished warp has read every tile in order, each complete |
| TileRing.NoDeadlock | kernels/attention/prefill_attn.cu:155-235 | while a warp is unfinished some warp can step |
| TileRing.RunsAreFinite | kernels/attention/prefill_attn.cu:157-235 | the length of a run is bounded by the work left at its start |
| PrefillKernel.TilesAre | kernels/attention/prefill_attn.cu:127-130 | the tiles end with the one that holds the last valid token's own key |
| PrefillKernel.ReadBackIsTile | kernels/attention/prefill_attn.cu:63-107 | reading a complete tile back by row and element gives the element of the page and offset the block table names, and zero past the last needed key |
| PrefillKernel.WarpLane | kernels/attention/prefill_attn.cu:181-194 | a valid token's score is the causal reference logit in base 2 and its V the cached value |
| PrefillKernel.FirstKeyVisible | kernels/attention/prefill_attn.cu:181-194 | key 0 is visible to every valid token, so the first tile has a real maximum |
| PrefillKernel.MaskedFirstTileCounts | kernels/attention/prefill_attn.cu:150-208 | a first tile without a real maximum would count each masked key with weight 1 |
| PrefillKernel.FiniteMaximum | kernels/attention/prefill_attn.cu:195-218 | with a real maximum the finite mask value acts as minus infinity |
| PrefillKernel.Rebase | kernels/attention/prefill_attn.cu:258 | the base-2 sums with the folded K descale are the natural sums of the reference |
| PrefillKernel.WarpStep | kernels/attention/prefill_attn.cu:195-231 | one tile keeps the running maximum, l and O equal to the partial sums |
| PrefillKernel.WarpAttention | kernels/attention/prefill_attn.cu:157-245 | tile loop and epilogue return causal attention over keys up to the token's own position |
| PrefillKernel.FinishWarp | kernels/attention/prefill_attn.cu:111-246 | after any interleaving of the eight warps a finished warp with a valid token returns exact causal attention |
| DiffKvBackend.Build | patches/triton_attn_diffkv.py:152-203 | which batches are split, into which parts, and the host offsets handed to the custom kernel |
| DiffKvBackend.PartsCoverBatch | patches/triton_attn_diffkv.py:173-199 | the two parts are well formed, their request and token counts add up to the batch's, and the decode part has only short queries |
| DiffKvBackend.PartsJoin | patches/triton_attn_diffkv.py:178-199 | joining the parts' lengths, tables and slots gives the batch back |
| DiffKvBackend.PartsKeepRows | patches/triton_attn_diffkv.py:187-195 | each request keeps its query rows under the rebased offsets |
| DiffKvBackend.PartsAttendBatch | patches/triton_attn_diffkv.py:372-375 | attending the parts separately attends the batch |
| DiffKvBackend.PfQblocks | patches/triton_attn_diffkv.py:75-83 | the host loop builds the list of 8-row blocks |
| DiffKvBackend.QblocksCoverOnce | patches/triton_attn_diffkv.py:79-81 | every query row lies in exactly one block and no other row in any |
| DiffKvBackend.DequantBlocks | patches/nvfp4_diffkv.py:163-190 | the dequantizing grid fills every scratch cell with the decoded row of its source block |
| DiffKvBackend.UsedWidthIs | patches/triton_attn_diffkv.py:403-405 | the scratch takes as many table columns as the longest sequence has blocks, or all of a narrower table |
| DiffKvBackend.ScratchKey | patches/triton_attn_diffkv.py:403-413 | a key read through the renumbered table is the key the original table names |
| DiffKvBackend.ScratchRefines | patches/triton_attn_diffkv.py:408-435 | attention through the scratch is attention through the packed cache |
| CachedRows.WrittenRowDecodes | patches/nvfp4_diffkv.py:163-190 | a packed row the writer left decodes, by the same reads the kernels make, to the quantized key and value |
| TritonPath.GridRows | patches/triton_attn_diffkv.py:439-452 | the grid's rows are the partition's query rows against their own requests' keys, at their positions |
| TritonPath.ScratchFits | patches/triton_unified_attention_diffkv.py:562-577 | whenever the launch is split, the allocated scratch has a slot for every row, head and segment |
| TritonPath.LaunchRows | patches/triton_unified_attention_diffkv.py:554-610 | the launcher, whichever of the 2D and split-KV grids it picks, leaves dense attention in every row and head |
| TritonPath.RunDirect | patches/triton_attn_diffkv.py:439-464 | the generic launch leaves dense attention in every row of its slice and writes nothing else |
| CudaPath.CtaRow | kernels/attention/prefill_attn.cu:118-131 | a CTA's reference row is the partition's row: the same vector, keys, scale and position |
| CudaPath.RunBlock | kernels/attention/prefill_attn.cu:111-246 | a q-block, under any interleaving of its warps, leaves dense attention in the rows it covers and writes nothing else |
| CudaPath.RunCustom | patches/triton_attn_diffkv.py:387-396 | the q-blocks of the custom kernel leave dense attention in every row of the slice and write nothing else |
| BackendForward.ScratchServes | patches/triton_attn_diffkv.py:403-420 | the dequantized scratch under the renumbered tables is a cache the generic launch can run on |
| BackendForward.RunScratch | patches/triton_attn_diffkv.py:397-438 | the scratch path leaves dense attention over the packed cache in every row of its slice |
| BackendForward.ScratchWithinCap | patches/triton_attn_diffkv.py:397-407 | the scratch path is taken only by long NVFP4 partitions whose dequantized blocks fit the cap |
| BackendForward.PathIff | patches/triton_attn_diffkv.py:376-407 | which partitions the custom kernel takes, which the scratch, and that all others are left to the generic kernel |
| BackendForward.SameDescales | patches/triton_attn_diffkv.py:389-447 | whichever path is chosen, its kernel applies the layer's own K and V descales over a quantized cache of numbers and none otherwise |
| BackendForward.Forward | patches/triton_attn_diffkv.py:372-466 | whatever paths the partitions take, every output row holds dense attention of its request's cached keys |
| DenseAttention.ForwardIs | patches/triton_attn_diffkv.py:372-466 | after forward each element of each output row is that softmax average over its own request's cached keys up to the row's own position |
| ServedCache.CellDecodes | patches/nvfp4_diffkv.py:138-190 | a cell that holds a token decodes to the token's quantized key and value in every head |
| ServedCache.CacheServes | patches/triton_attn_diffkv.py:399-447 | whatever its bytes, a packed cache that the block tables stay inside serves the batch |
| ServedCache.WriteThenForward | patches/triton_attn_diffkv.py:291-466 | a cache update and then a forward: every output row is dense attention over the quantized keys and values of its request's tokens, those the batch wrote and those it left alone |
| Schedules.SomeSetup | patches/triton_unified_attention_diffkv.py:591-610 | orders that run every program of every 2D and split-KV grid exist |
| Schedules.SomeFinishedRun | kernels/attention/prefill_attn.cu:152-235 | some interleaving of the eight warps finishes them all |
| Nvfp4.BitsAreTable | patches/nvfp4_diffkv.py:193-198 | the half-precision bits built from a code are the table's value, sign bit included, for all 16 codes |
| Nvfp4.NibbleBits | patches/nvfp4_diffkv.py:91-92 | packing two codes with or and shift is undone by shift and mask |
| Nvfp4.EncodeNearest | patches/nvfp4_diffkv.py:47-58 | the encoder returns a nearest e2m1 value for every real, the one farther from 0 of two, saturates at 6 and signs negative values only |
| Nvfp4.ZeroScaleCode | patches/nvfp4_diffkv.py:86-89 | under a scale that rounded to 0 every code is a 6 with the sign of the value |
| Nvfp4.RegionsFit | patches/nvfp4_diffkv.py:28-43 | the four regions are adjacent, disjoint and fit the aligned row, for all head sizes that are multiples of 16 |
| Nvfp4.GroupMaxIsMax | patches/nvfp4_diffkv.py:85 | the group maximum bounds every element and, when not 0, is reached by one |
| Nvfp4.KernelAgrees | patches/triton_unified_attention_diffkv.py:262-284 | the kernels' decode returns the quantized element at every position of a written side |
| Nvfp4.TorchAgrees | patches/nvfp4_diffkv.py:143-151 | so does the torch reference |
| Nvfp4Cache.RowsDisjoint | patches/nvfp4_diffkv.py:75-77 | rows of different (page, head, offset) never overlap, whatever padding the strides leave |
| Nvfp4Cache.SlotAddress | patches/nvfp4_diffkv.py:75-77 | the address of a slot's row, in strides |
| Nvfp4Cache.WriteSide | patches/nvfp4_diffkv.py:78-92 | the parallel stores of one side leave its codes and scales and touch nothing else |
| Nvfp4Cache.WriteProgram | patches/nvfp4_diffkv.py:70-106 | one program writes its token's row, or nothing for a negative slot |
| Nvfp4Cache.WriteBatch | patches/nvfp4_diffkv.py:109-130 | programs in any order: every cached token's rows hold its keys and values, every other byte is unchanged |
| Nvfp4Cache.WriteThenRead | patches/nvfp4_diffkv.py:138-190 | the attention kernel's decode, the block dequantizer and the torch reference return the same element everywhere in a written row |
| Nvfp4Error.EncodeError | patches/nvfp4_diffkv.py:47-58 | a code is off by at most 1, or by the excess over 6 |
| Nvfp4Error.ElementError | patches/nvfp4_diffkv.py:85-89 | with any scale, 0 included, an element is off by at most the scale or what six scales leave of the maximum |
| Nvfp4Error.ScaleWithinSixteenth | patches/nvfp4_diffkv.py:86 | rounding to e4m3 in its normal range moves a scale by at most a sixteenth |
| Nvfp4Error.ScaleWithinStep | patches/nvfp4_diffkv.py:86 | below the normal range rounding moves a scale by at most 1/1024 |
| Nvfp4Error.ScaleSaturates | patches/nvfp4_diffkv.py:86 | from 448 on the scale is 448 |
| Nvfp4Error.GroupError | patches/nvfp4_diffkv.py:85-92 | every element of every group is read back within the stored scale, or within what six of it leave of amax |
| Nvfp4Error.CloseScaleError | patches/nvfp4_diffkv.py:85-92 | with a stored scale within a sixteenth of amax / 6 that is 17/96 of amax |
| Nvfp4Error.NormalError | patches/nvfp4_diffkv.py:85-92 | so it is for every amax / 6 in the normal range of e4m3 |
| Nvfp4Error.SmallError | patches/nvfp4_diffkv.py:85-92 | below that range an element is off by at most amax / 6 + 1/1024 (+ the 1e-8 floor), or 6/1024 |
| Nvfp4Error.LargeError | patches/nvfp4_diffkv.py:85-92 | above it by at most 448, or the excess of amax over 6 * 448 |
| Nvfp4Error.GroupFlushedIff | patches/nvfp4_diffkv.py:86-92 | a group is read back as zeros iff its amax / 6 is at most half the smallest positive e4m3 value |
| StalePages.RunKeepsInv | overlay/patch_dflash_swa_stale_pages.py:8-15 | over every run of growing, writing, committing, freeing and reuse, live pages stay owned and hold what was written |
| StalePages.NoOverlap | overlay/patch_dflash_swa_stale_pages.py:8-15 | live positions of one or two requests never share a cell |
| StalePages.RedirectIdempotent | overlay/patch_dflash_swa_stale_pages.py:17-21 | redirecting twice changes nothing more |
| StalePages.UpdatedRowIs | overlay/patch_dflash_swa_stale_pages.py:69-81 | with the earliest position any draft row attends in block f, the entries before f name f's page and all others are as they were |
| StalePages.RowKept | overlay/patch_dflash_swa_stale_pages.py:65-81 | a row past the batch, or of a window that reaches into the first block, is as it was |
| StalePages.RedirectGroup | overlay/patch_dflash_swa_stale_pages.py:69-81 | the in-place update redirects exactly the entries below each request's first in-window block |
| StalePages.RedirectAll | overlay/patch_dflash_swa_stale_pages.py:44-81 | every sliding-window group's own table is updated so, and none when disabled or without requests |
| StalePages.RedirectedOwned | overlay/patch_dflash_swa_stale_pages.py:17-21 | every position read through the redirected row is on a page the request still owns |
| StalePages.RedirectSafeIff | overlay/patch_dflash_swa_stale_pages.py:17-21 | every reachable read through the redirect is the exact windowed sum iff block <= window - 1 + rows or the tile divides the block |
| StalePages.PlainSafeIff | overlay/patch_dflash_swa_stale_pages.py:8-15 | without the redirect that holds iff the tile divides the block |
| ToolCallTheorems.CutIs | overlay/patch_qwen3_toolparse.py:82-110 | by positions: a value ends at an opening tag with only blanks between it and a newline, if no other tag of the two kinds comes before; else at the first closing tag that an opening tag, function-end or nothing follows, white space aside; else nowhere |
| ToolCallTheorems.StripIs | overlay/patch_qwen3_toolparse.py:107 | what is stripped from an unclosed value: its last function-end, the white space after it, the blanks before it and one newline before those |
| ToolCallTheorems.StripNothing | overlay/patch_qwen3_toolparse.py:107 | nothing is stripped when no function-end is followed by white space alone |
| ToolCalls.Convert | overlay/patch_qwen3_toolparse.py:77-112 | the converter's loop terminates and returns the dictionary of the parsed arguments |
| ToolCalls.Engine.OnTerminal | overlay/patch_qwen3_toolparse.py:124-163 | one token moves the guard's state and argument text as specified |
| ToolCalls.Engine.Feed | overlay/patch_qwen3_toolparse.py:124-163 | a token stream does so token by token |
| ToolCallTheorems.ClosesIff | overlay/patch_qwen3_toolparse.py:124-143 | by positions: function-end closes a call when the text before it is white space or ends in a closing tag, tool-end when it ends in a function-end that starts a line, white space aside |
| ToolCallTheorems.ParseRenderIff | overlay/patch_qwen3_toolparse.py:79-105 | parsing a rendered call returns its arguments iff no value has a closing tag that an opening tag or function-end follows, or a first tag that is an opening one at the start of a line |
| ToolCallTheorems.RoundTripIff | overlay/patch_qwen3_toolparse.py:14-25 | rendering, guard and parser return exactly the arguments with nothing leaked iff every value is clean |
| ToolCallTheorems.HandleCall | overlay/patch_qwen3_toolparse.py:77-112 | a call with clean values and distinct names comes back as exactly those pairs, nothing outside |
| ToolCallStreaming.PrefixStable | overlay/patch_qwen3_toolparse.py:72-75 | as the text grows all parsed arguments but the last stay, and the last raw value only grows |
| ToolCallTheorems.ClosedCallHasNoOpenValue | overlay/patch_qwen3_toolparse.py:133-135 | after a close by function-end the unclosed-value branch is never taken |
| ToolCallStreaming.StoredIsAssigned | overlay/patch_qwen3_toolparse.py:104-111 | the converter stores the trimmed value, stripped of a trailing function-end line when it is still open |
| ToolCallStreaming.ShownStableIff | overlay/patch_qwen3_toolparse.py:106-109 | the stored form of a value in progress stays a prefix of all its later forms iff it does not end in a blank or in two newlines after something, or already ends in a stripped line |
| ToolCallStreaming.ShownShrinks | overlay/patch_qwen3_toolparse.py:22-23 | with such an end it shrinks when function-end follows |
| ToolCallDict.DictIs | overlay/patch_qwen3_toolparse.py:77-112 | the returned dictionary has each stored name once, where it first appeared, with the value last stored under it |
| ToolCallDict.KeptIff | overlay/patch_qwen3_toolparse.py:22-23 | whatever follows, repeated names or not, the dictionary only grows iff the last argument's name is not dropped and each name's last value is kept, the last name's as a prefix |
| ToolCallDict.StreamStableIff | overlay/patch_qwen3_toolparse.py:22-23 | the dictionary of a text only grows under every continuation without repeated names iff it repeats one already, has no argument, or has a last one that is named and closed or ends as above, or nameless and either open or followed by more than white space |
| ToolCallDict.EverStableIff | overlay/patch_qwen3_toolparse.py:22-23 | it only grows under every continuation at all iff it is empty, or holds one empty value whose name cannot be dropped |
| ToolCallDict.RepeatReplaces | overlay/patch_qwen3_toolparse.py:99-103 | a closed argument that follows under the same name replaces the value that was shown |
| QkvShard.CellOfAddr | patches/mimo_v2.py:525-537 | every head row has a checkpoint row, in the region of its own part and head |
| QkvShard.AddrOfCell | patches/mimo_v2.py:525-537 | every checkpoint row is one head row |
| QkvShard.IndexOwned | patches/mimo_v2.py:616-643 | a gathered row is the row of a head the rank owns, at its place in [Q, K, V] order |
| QkvShard.RowFormula | patches/mimo_v2.py:557-643 | the gather in closed form: which checkpoint row is row r of the rank's local head a, for Q, K and V, replicated KV heads included |
| QkvShard.IndexInjective | patches/mimo_v2.py:616-644 | a rank gathers no row twice |
| QkvShard.GathersWhatItOwns | patches/mimo_v2.py:557-577 | a rank gathers a checkpoint row iff it owns the row's head |
| QkvShard.GatheredOnce | patches/mimo_v2.py:557-577 | over all ranks every Q row, and every unreplicated KV row, is gathered exactly once |
| QkvShard.GatheredByReplicas | patches/mimo_v2.py:570-574 | a replicated KV row is gathered by exactly the tp / kvHeads ranks of its head |
| QkvShard.KvHeadOnRank | patches/mimo_v2.py:557-577 | the KV head a local Q head attends to is on the same rank, where grouped attention looks for it |
| QkvShard.ScaleRowIs | patches/mimo_v2.py:589-598 | which scale row a checkpoint row has in each of the two grids |
| QkvShard.ScaleInRange | patches/mimo_v2.py:591-599 | an accepted checkpoint has a weight row and a scale row for every gathered position |
| QkvShard.GridsCoincideIff | patches/mimo_v2.py:589-599 | the two scale grids index alike iff a chunk is whole blocks or there is one chunk |
| QkvShard.CountsAgreeIff | patches/mimo_v2.py:591-598 | for every accepted number of rows, the two grids have equally many scale rows iff it lies in the last block of the per-chunk grid, that is iff the remainder fits the chunks' unused tails and leaves less than a block of them |
| QkvShard.AmbiguousIff | patches/mimo_v2.py:589-606 | an accepted checkpoint fits both grids with different scales for some row iff it has the per-chunk number of scale rows, several chunks that are not whole blocks, and tails below a block plus the remainder |
| QkvShard.CountIsAmbiguous | patches/mimo_v2.py:593-598 | an accepted shape whose scale-row count fits both grids while row 255 has a different scale in each |
| QkvShard.RestIsAmbiguous | patches/mimo_v2.py:593-598 | so it is for a shape with a remainder and row 192 |
| QkvShard.GatherIndex | patches/mimo_v2.py:617-644 | the loops build the rank's index |
| QkvShard.SliceIsGatherIff | patches/mimo_v2.py:608-614 | a plain chunk is exactly the rank's gathered rows, in order, iff the row count is a multiple of the chunk count |
| QkvShard.RankIsChunk | patches/mimo_v2.py:544-545 | with as many ranks as chunks a rank's rows are one chunk in order |
| QkvShard.PieceIs | patches/mimo_v2.py:608-614 | the rank's piece of each tensor is a ceiling share of its rows from the rank's place on, and is missing iff the shares before it take them all |
| QkvShard.ShardQkv | patches/mimo_v2.py:511-648 | a rejected shape fails with its own error; the chunk path returns the rank's piece of both tensors; by the gather path, and by the chunk path when the rows make whole chunks, the rank gets its rows in order, each with its own scale row |
| Requantize.PaddingKeepsScales | patches/mimo_v2.py:494-504 | zero padding leaves the number of scale rows and every block's amax unchanged |
| Requantize.AmaxIsMax | patches/mimo_v2.py:497-507 | the amax bounds every magnitude and, when not 0, is one of them |
| Requantize.Requantize | patches/mimo_v2.py:489-508 | as many rows as given come back, each coded under the scale of the largest magnitude the given rows have in its block |
| QkvRequantize.ShardFp8 | patches/mimo_v2.py:511-648 | the whole call: an error, the rank's piece, or the rank's rows dequantized with their own scales and coded again under scales of their own blocks |
| QkvPairing.Loader.TryLoad | patches/mimo_v2.py:898-942 | one half is kept, or completes its pair and writes both parameters, cut to their rows; other ranks' layers are consumed unseen |
| QkvPairing.Loader.LoadWeights | overlay/patch_qkv_pending.py:15-18 | a call continues from the halves earlier calls left and reports the parameters it loaded |
| QkvPairing.RunLeaves | patches/mimo_v2.py:910-942 | whatever the order, a layer is written once, each parameter with the first rows of its own shard of its own pair, or its one half is left pending, or it is untouched |
| QkvPairing.GroupingDoesNotMatter | overlay/patch_qkv_pending.py:4-9 | any split of the stream into calls acts as one call |
| QkvPairing.Confluent | overlay/patch_qkv_pending.py:4-9 | streams of the same halves in any order and grouping end in the same parameters, pending halves and write counts |
| QkvPairing.StockWritesIff | patches/mimo_v2.py:768 | with a dict per call a layer is written iff some call carries both its halves |
| QkvPairing.PatchRestoresSplitPairs | overlay/patch_qkv_pending.py:6-9 | the layers only the persistent dict writes are exactly those whose pair was split between calls |
| PageUnify.RankingIs | overlay/patch_page_unify.py:54 | each page of a layer that is not Mamba once, those of more layers first and of two equally frequent the larger first |
| PageUnify.ChainRule | overlay/patch_page_unify.py:53-58 | the chain starts as the first page, a multiple of it takes its place and any other page leaves it; accepted are the pages that divide it or that it divides |
| PageUnify.ReachedDivides | overlay/patch_page_unify.py:55-58 | the first page, and every page that divides the chain reached before it or is a multiple of it, divides the final chain |
| PageUnify.AcceptedDivides | overlay/patch_page_unify.py:53-58 | every accepted page divides the final chain |
| PageUnify.ChainPositive | overlay/patch_page_unify.py:53-58 | the chain is itself one of the accepted pages |
| PageUnify.CommonPage | overlay/patch_page_unify.py:41-66 | the loops return the common page, or None when disabled, with one page size, or when the common page is the largest |
| PageUnify.CommonIsLeast | overlay/patch_page_unify.py:59 | the common page is the least multiple of all accepted pages not below the largest page |
| PageUnify.NoneIsStock | overlay/patch_page_unify.py:59-61 | None on the enabled path means exactly that the chain divides the largest page, the stock choice |
| PageUnify.UnifiedPage | overlay/patch_page_unify.py:72-85 | a unified layer has exactly the common page, still fits its content, and when only scaled keeps its bytes per token |
| PageUnify.UnifiedIff | overlay/patch_page_unify.py:73-84 | which layers cannot be brought to the common page, which are kept and which are padded only |
| PageUnify.UnifyTo | overlay/patch_page_unify.py:69-87 | every layer ends at the common page, or the first layer that cannot is reported |
| PageUnify.AcceptedOnlyScaled | overlay/patch_page_unify.py:77-78 | unpadded layers on an accepted page are only scaled |
| PageUnify.MajorityOnlyScaled | overlay/patch_page_unify.py:11-14 | the page carried by most layers, the larger of two equally frequent, is never padded |
| PageUnify.ServedModel | overlay/patch_page_unify.py:11-14 | on the served layers, in any order, the common page is 23,040 bytes, full layers get 64-token blocks, window layers 32-token blocks, and only drafter layers are padded |
| Telemetry.RunKeepsInv | overlay/mimo26_viz_runtime.py:199-239 | over every run at most one copy is in flight and the host will hold what its record says |
| Telemetry.HostSafe | overlay/mimo26_viz_runtime.py:217-228 | the host buffers change only when the pending copy runs, never between its completion and its delivery |
| Telemetry.Additions | overlay/mimo26_viz_runtime.py:199-239 | when an event sends a frame and what is in it, when it starts a copy and what is recorded beside it, field by field |
| Telemetry.HooksHold | overlay/mimo26_viz_runtime.py:183-210 | after any events the hooks hold the last batch installed, the number of batches, and the sampled rows and acceptance counts given last |
| Telemetry.FramesAndRate | overlay/mimo26_viz_runtime.py:221-239 | every frame carries one copy's data and the batch, step, counts, tokens and rows the events before that copy left; copies are at least 1 / hz apart and the queue holds the latest frames within its size |
| Telemetry.CurrentIff | overlay/mimo26_viz_runtime.py:199-212 | after any events the device buffers will hold the installed step iff a forward was recorded since its installation, the sampled rows and accepted counts are of it iff they were set since, and the hooks' own record of this is right |
| Telemetry.RecordsWereQueued | overlay/mimo26_viz_runtime.py:229-239 | the record of every frame sent was made by one pump and describes, field by field, what the hooks held then |
| Telemetry.FrameOwnStepIff | overlay/mimo26_viz_runtime.py:207-239 | a frame's data, sampled rows and accepted counts are each of its record's step iff set between that step's installation and its copy |
| Telemetry.AllFramesOwnStepIff | overlay/mimo26_viz_runtime.py:207-239 | over a run each of the three is so for all frames iff every delivered copy was queued with it set |
| Telemetry.SkippedForwardMispairs | overlay/mimo26_viz_runtime.py:207-209 | at every rate some run without such a forward sends one batch's data under another batch |
| Telemetry.Runtime.DeliverCopy | overlay/mimo26_viz_runtime.py:217-228 | a completed copy is handed over, or dropped when the queue is full |
| Telemetry.Runtime.QueueCopy | overlay/mimo26_viz_runtime.py:229-239 | the next copy is queued with its record, unless too soon or the step had no tokens |
| Telemetry.Runtime.InstallBatch | overlay/mimo26_viz_runtime.py:199-212 | the pump runs for the previous batch before the new one is installed, and not while capturing or when off or dead |

## Left out

- Float rounding and the range of fp32, fp16 and bf16: all sums are exact.
- ldmatrix and mma fragment layouts, warp shuffles, launch warps and stages: a warp's reads and sums are taken whole.
- The paged lookup of keys inside the Triton kernels: a query row carries its sequence's keys in order; the lookup
  through block tables is modelled in `DiffKvBackend` and `PrefillKernel`.
- CudaPath.RunBlock: the sixteen query heads of a KV head are taken one after another; the kernel holds them in one warp and reads each tile once for all of them.
- ServedCache.WriteThenForward: writes the NVFP4 cache; the update of the other cache forms is vLLM's own kernel and not part of this model.
- DiffKvBackend.DequantBlocks: a cached row holds all KV heads, so the grid's head axis is folded into one program.
- BackendForward.RunScratch: the rounding of dequantized values to the scratch's own type.
- BackendForward.Forward: cascade attention and fused output quantization, which the source refuses, and a missing batch, which fills the output with zeros.
- StalePages.RedirectAll: updates the gathered tables of one step; the gather that refreshes them from the persistent table each step is vLLM's.
- ToolCalls.Convert: returns the dictionary; JSON escaping and the real regular expressions are not modelled.
- ToolCalls.Engine.OnTerminal: transitions of the engine outside one tool call are vLLM's and not part of this model.
- QkvShard.ShardQkv: an empty piece is an error of its own; which exception torch raises for it is not modelled.
- QkvPairing.Loader.TryLoad: an exception raised while sharding ends the load and is not modelled; sharding is any function of the pair.
- Telemetry.Runtime.QueueCopy: the four buffers are copied by four consecutive operations, modelled as one.
- The publisher's frame folding, the dashboard, scripts, benchmarks and tests: I/O and presentation.
- `custom_all_reduce`, the module plumbing of `mimo_v2.py` and the other anchor patchers: stock vLLM or one text replacement each.
