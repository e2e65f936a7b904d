# Proofs about dash-mlx and dash-image

A Dafny model of the numerical algorithms of `dash-mlx` (attention, fused cross-entropy, chosen
log-probability, causal convolution, the gated delta rule, the sampler, activation checkpointing) and
of `dash-image`'s resize. Each algorithm is blocked, streamed, strided, chunked, recomputed or in fixed
point; each has a short definition, mostly written down in `dash-contract`. The project states both and
proves that the algorithm computes the definition, for every size and every blocking.

Check it with `dafny verify dfyconfig.toml` (Dafny 4.11).

## How it is written

- Arithmetic is over the reals; the resize is in exact integers from its fixed-point weights on,
  with the 32-bit wrap of its accumulators, Philox in 32-bit words, the ends of a query's reach in
  the tile kernels wrap at 32 bits and those behind the choice of tiles at 64, and packed bounds are
  narrowed from 64 bits as the code narrows them. A tensor is its entry function (`Sums.Vec`,
  `Sums.Mat`), a lane or a thread is an index, and a kernel's loop is a Dafny loop.
- `exp` and `ln` are parameters known by their laws alone (`Analysis.Exponential`): `exp(0) = 1`,
  `exp > 0`, `exp(a + b) = exp(a) exp(b)`, strictly increasing, and `ln` its inverse; so is the square
  root of the l2 normalisation, positive with its square the argument.
- Gradients are adjoints. The derivative of a definition along a direction is the definition itself
  evaluated on dual numbers (`Analysis.Dual`), and a gradient is right when the cotangent against the
  derivative equals the gradient against the direction, for every direction.
- Code that updates things in loops is a method with invariants; expression chains are functions.
  Modules follow the source: `Attention*` (attention.rs), `Vocabulary`, `LogprobState`,
  `LogprobGradient` (logprob.rs), `RowDerivative`, `LossGradient` (loss.rs), `Conv1d*` (conv1d.rs),
  `GatedDelta` and `Delta*` (gated_delta/), `Philox`, `Scans`, `Sample` (sample.rs), `Resize`
  and `ResizeFilter` (dash-image), `Checkpoint` (checkpoint.rs). `Bounds` is the check of packed bounds that conv1d.rs and
  gated_delta/chunk.rs share; `Sums`, `Vectors`, `Analysis`, `Integers` (machine words and division)
  and `Chunks` hold the mathematics they share.

## What the proofs found

- Which tiles a pass takes is computed from a side of up to 2^63 - 1 in 64-bit sums
  (attention.rs:179-196) that overflow just past it: a panic in a debug build, and else a wrapped end
  for which no query, or no key, is picked. Every pick is exact, going forward and back, exactly if
  `Tq + left` and `Tk + right` fit 64 bits (`AttentionBand.PicksExactly`). With one query and one key
  that see each other, a right side of 2^63 - 1 gives an output of 0 and a left one no gradient
  (`AttentionBand.RightPickWraps`, `LeftPickWraps`). The passes are proved for the keys they take,
  whatever the side, and to be the contract's where the picks fit (`AttentionForward.BlockedForward`,
  `AttentionForward.ForwardIsContract`, `AttentionBackward.BlockedBackward`).
- The tile kernels are told a window side of at most 2^30 (attention.rs:206) and compute the ends of a
  query's reach in 32 bits (attention.rs:332-334). The band they apply is the call's on every pair
  exactly if no distance in the call exceeds a cut side and neither end leaves 32 bits
  (`AttentionBand.KernelBandExact`); with 2^30 + 1 keys and a right side of 2^30 the query loses the key
  it sits at (`AttentionBand.EndWraps`). The modelled attention uses the kernels' band;
  `AttentionContract.OutIsContract` ties it to the contract under that condition.
- The convolution and the gated delta rule narrow packed bounds to 32 bits before they check them
  (conv1d.rs:276-285, gated_delta/chunk.rs:204-221). The verdict is the contract's exactly unless
  bounds that do not fit 32 bits pass once narrowed (`Bounds.NarrowedExact`), as `[0, 2^32, T]` does
  (`Bounds.FallingBoundsPass`). Attention checks its offsets before narrowing.
- Packed attention refuses offsets of different counts in its forward pass; its backward pass takes
  them, for the sequences both hold (`AttentionPackedBackward.DispatchBackward`).
- With label smoothing of exactly 1 a row whose target is masked or out of range has a finite loss in
  the code, where the contract says `+inf` for every such row (loss.rs:201-204 against
  dash-contract's loss.rs:28-31): the loss of a counted row is the contract's exactly unless its target
  is not found and the smoothing is 1 (`LossGradient.LossIsContract`, with
  `LossGradient.FullSmoothing` a row where it is not).
- A sequence continued from a state of `len` steps has the whole sequence's final state on every
  input exactly if that final state, as far back as the whole has anything to hold, reaches no further
  back than the piece's history: `min(final, W + T) <= len + (T - at)`
  (`Conv1d.SplitFinalStateExact`).
- A resize keeps every pixel between the bounds of its window, on every line, exactly if the window's
  fixed-point weights, known from the two sizes alone, sum closely enough to 2^22 that neither 255 of
  what they miss nor 254 of what they exceed makes half a level (`Resize.BoundsKeptExactly`). They do
  whenever `255 ksize < 2^22`. Past that they need not: from 2^25 places to 1 every weight rounds to 0
  and white comes out black (`Resize.WhiteLost`).
- When a layer, or the product through it, fails in `checkpoint::backward`, the error returns before
  the layer's own arrays are put back (checkpoint.rs:97-107): that layer, and no other, is left with
  the transform's arrays; a failed evaluation afterwards leaves none (`Checkpoint.Backward`;
  `Checkpoint.MiddleLeftTraced` is a stack where it happens).

## Model

| member | source | states |
|---|---|---|
| `AttentionBand.ReachIsContract` | crates/dash-mlx/src/attention.rs:83-92 | a query sees a key by the reach the options come to exactly if the contract's causality and window allow the pair |
| `AttentionBand.QueriesForExact` | crates/dash-mlx/src/attention.rs:179-186 | a query is picked for a block of keys exactly if the 64-bit sums behind the pick fit and it sees one of them |
| `AttentionBand.KeysForExact` | crates/dash-mlx/src/attention.rs:188-196 | a key is picked for a block of queries exactly if the 64-bit sums behind the pick fit and one of them sees it |
| `AttentionBand.PicksExactly` | crates/dash-mlx/src/attention.rs:179-196 | every pick of both kinds is exact, for every block, exactly if `Tq + left` and `Tk + right` fit 64 bits |
| `AttentionBand.LeftPickWraps` | crates/dash-mlx/src/attention.rs:179-186 | the same with that side on the left, causal: no query is picked |
| `AttentionBand.RightPickWraps` | crates/dash-mlx/src/attention.rs:188-196 | one query and one key the contract lets meet, a right side of 2^63 - 1: no key is picked |
| `AttentionBand.KernelBandExact` | crates/dash-mlx/src/attention.rs:200-224 | the band the kernels apply, sides cut to 2^30 and ends in 32 bits, is the call's on every pair exactly if no distance in the call exceeds a cut side and no end that matters leaves 32 bits |
| `AttentionBand.EndWraps` | crates/dash-mlx/src/attention.rs:325-341 | 2^30 + 1 keys and a right side of 2^30: the end wraps and the kernels hide the key the query sits at |
| `AttentionBand.DashVisibleIsBand` | crates/dash-mlx/src/attention.rs:325-341 | the kernels' test on a row and a column of any tile is the band at that head's query and key and the padding of its batch element |
| `AttentionContract.VisibleIsContract` | crates/dash-contract/src/attention.rs:33-48 | where the band fits the kernels, a key is visible exactly if the contract's causality and window allow it and the padding keeps it |
| `AttentionContract.OutIsContract` | crates/dash-contract/src/attention.rs:9-48 | there the modelled output is the contract's: the allowed keys' values averaged by the exponentials of their scores, 0 where none is allowed |
| `AttentionContract.LseIsContract` | crates/dash-contract/src/attention.rs:9-48 | there the log-sum-exp is the contract's over the allowed keys, `-inf` where none is |
| `AttentionContract.PIsRatio` | crates/dash-contract/src/attention.rs:9-12 | `exp(s - lse)` is the softmax ratio |
| `AttentionContract.PSumsToOne` | crates/dash-contract/src/attention.rs:9-12 | the probabilities of a row that sees a key sum to 1 |
| `AttentionContract.OutUnseen` | crates/dash-contract/src/attention.rs:56-59 | a row that sees no key is zeros |
| `AttentionForward.SoftmaxRow` | crates/dash-mlx/src/attention.rs:346-381 | the softmax kernel on a row, lanes and all: the exponentials, the new maximum as the greatest visible score, and the sum and the rescaling factor in terms that do not depend on the maximum |
| `AttentionForward.TileSoftmax` | crates/dash-mlx/src/attention.rs:408-476 | every row of a tile makes the step of its own head and query |
| `AttentionForward.ForwardTile` | crates/dash-mlx/src/attention.rs:543-579 | one tile carries the running maximum, sum and output of every row over its keys |
| `AttentionForward.ForwardBlock` | crates/dash-mlx/src/attention.rs:543-579 | after the tiles picked for a block of queries its rows hold `s exp(m) = sum exp(S)`, `o exp(m) = sum exp(S) v` over all visible keys of those tiles |
| `AttentionForward.BlockedForward` | crates/dash-mlx/src/attention.rs:543-579 | for any block sizes and any side every row is the attention over the visible keys its block takes, and `m + ln s` its log-sum-exp; where every block's sums fit, over all visible keys, the contract's attention (zeros where no key is seen) |
| `AttentionForward.TakenIsWhole` | crates/dash-mlx/src/attention.rs:188-196 | where a block's sums fit, the keys it takes are all its queries see, so that its rows are done |
| `AttentionForward.ForwardIsContract` | crates/dash-contract/src/attention.rs:9-48 | where a block's sums fit 64 bits and the band fits the kernels, its rows are the contract's attention over the allowed keys |
| `AttentionForward.NothingTaken` | crates/dash-mlx/src/attention.rs:543-579 | a block for which no key is picked leaves zeros and `-inf`, whatever its queries see |
| `AttentionForward.LseFinishes` | crates/dash-mlx/src/attention.rs:697-710 | `m + ln s` is the direct log-sum-exp, `-inf` where nothing was summed |
| `AttentionGradient.DualOutIs` | crates/dash-contract/src/attention.rs:9-12 | the output's derivative along any direction of q, k, v, in closed form |
| `AttentionGradient.DualLseIs` | crates/dash-contract/src/attention.rs:9-12 | the log-sum-exp's derivative is the scores' averaged by the probabilities |
| `AttentionGradient.AttentionAdjoint` | crates/dash-mlx/src/attention.rs:592-693 | the gradients of q, k, v together are the adjoint of the output and the log-sum-exp together, grouped heads included |
| `AttentionGradient.ScoreGradientSums` | crates/dash-mlx/src/attention.rs:592-693 | each row of `dS` sums to its log-sum-exp cotangent; a row that sees no key has no `dS` and a zero query gradient |
| `AttentionBackward.TileGrads` | crates/dash-mlx/src/attention.rs:384-399 | the gradient kernel fills a tile with the contract's `P` and `dS` |
| `AttentionBackward.ForwardNormalises` | crates/dash-mlx/src/attention.rs:584-587 | the forward pass's maximum and sum, and the log-sum-exp with 1, both normalise the scores to the probabilities |
| `AttentionBackward.BackwardKeys` | crates/dash-mlx/src/attention.rs:633-681 | one block of keys: its own dk and dv whole and every block of queries carried over those keys, nothing where no query is picked for it |
| `AttentionBackward.BlockedBackward` | crates/dash-mlx/src/attention.rs:592-693 | for any block sizes and any side dq, dk, dv are the sums over the keys that are taken; where every block of keys fits, the gradients whose adjoint identity is proved |
| `AttentionBackward.UntakenKey` | crates/dash-mlx/src/attention.rs:633-681 | a key whose block's sums do not fit gets no gradient, whoever sees it |
| `AttentionBackward.Unpacked` | crates/dash-mlx/src/attention.rs:697-729 | forward, then backward from its maximum and sum: the contract's attention, and its gradients where the picks fit |
| `AttentionBackward.VisiblePairInOneTile` | crates/dash-mlx/src/attention.rs:592-660 | every visible pair of a query and a key lies in exactly one processed tile if the sums of its block of keys fit, and else in none |
| `AttentionDecode.Simdgroup` | crates/dash-mlx/src/attention.rs:1115-1147 | a simdgroup's loop over every SG-th key of a split leaves the state of its own keys for every head of the group |
| `AttentionDecode.DecodeSplit` | crates/dash-mlx/src/attention.rs:1148-1182 | the simdgroups' parts merged by maxima are the state of the whole split |
| `AttentionDecode.MergeSplits` | crates/dash-mlx/src/attention.rs:1059-1068 | the splits' parts merged give the softmax average over `lo..hi`, empty splits included |
| `AttentionDecode.DecodeSlice` | crates/dash-mlx/src/attention.rs:1014-1182 | for any number of splits and simdgroups, any length and window, every head's output is the softmax average over the range of keys, which `AttentionDecode.DecodeIsAttention` puts in terms of the length; zeros for length 0 |
| `AttentionDecode.KeyTakenOnce` | crates/dash-mlx/src/attention.rs:1105-1124 | each key of `lo..hi` is taken by exactly one split and simdgroup |
| `AttentionDecode.DecodeIsAttention` | crates/dash-contract/src/attention.rs:61-69 | the softmax average over the kernel's range of keys is the contract's attention of one query after the last of L keys, any causality and window: L the given length where it is between 0 and the cache's, the whole cache where it is greater or not given, the values 0 where it is negative; a length out of 32 bits counts as the i32 it wraps to |
| `AttentionDecode.DecodeHeads` | crates/dash-mlx/src/attention.rs:1014-1182 | decoding a slice gives each of its heads, query head `y group + g` with key head y, that attention, for any splits and simdgroups |
| `AttentionPacked.Dispatch` | crates/dash-mlx/src/attention.rs:732-845 | refused exactly when an offset check is, the counts differ or there is no query row to join; else there are Tq rows, every sequence whose picks fit is attention on it alone (in the batch's own tensors: `AttentionPacked.PackedIsContract`), and rows past the last offset are zeros with `-inf` |
| `AttentionPacked.PackedIsContract` | crates/dash-mlx/src/attention.rs:823-845 | query `cuQ[s] + i` of the batch has the contract's attention over the keys from `cuK[s]`: scores `scale q . k` of the batch's own rows and its values at those keys, causality and window at the sequence's own lengths; its log-sum-exp likewise |
| `AttentionPacked.SequencesAreIndependent` | crates/dash-contract/src/attention.rs:49-54 | two packs alike on one sequence give it the same output and log-sum-exp whatever else they hold |
| `AttentionPackedBackward.DispatchBackward` | crates/dash-mlx/src/attention.rs:957-1004 | refused exactly when an offset check is, or nothing is there to join; offsets of different counts are taken; every sequence both hold whose picks fit gets its own gradients, and every place past the last zeros |
| `AttentionPackedBackward.PackedAdjoint` | crates/dash-mlx/src/attention.rs:957-1004 | those gradients are the adjoint of the packed call: dq, dk, dv against a direction are the output's gradient against the derivative of every sequence's output, taken by dual numbers over the batch's own q, k, v at the sequence's places |
| `Vocabulary.NewExact` | crates/dash-mlx/src/logprob.rs:284-389 | which vocabularies are accepted, and that a row is valid exactly if its target is an unmasked token |
| `Vocabulary.KernelMasksExact` | crates/dash-mlx/src/logprob.rs:407-447 | the flags a chunk's kernel reads are the masked ids, chunks without one taken without flags |
| `Vocabulary.BlocksExact` | crates/dash-mlx/src/logprob.rs:371-388 | the row blocks partition `0..n`, none exceeds row_chunk, and there are as few as can be |
| `Vocabulary.NewBlocks` | crates/dash-mlx/src/logprob.rs:371-389 | an accepted vocabulary's blocks are those |
| `LogprobState.CombineAdds` | crates/dash-mlx/src/logprob.rs:117-132 | undone of its maximum, combining two states adds each of their sums |
| `LogprobState.CombineIsUnion` | crates/dash-mlx/src/logprob.rs:117-132 | the combined state of two disjoint token sets is the state of their union |
| `LogprobState.ThreadLoop` | crates/dash-mlx/src/logprob.rs:136-165 | a thread's strided loop leaves the state of exactly its own unmasked tokens |
| `LogprobState.ShuffleDown` | crates/dash-mlx/src/logprob.rs:166-178 | the shuffle-down tree leaves lane 0 the state of the whole simdgroup, whatever lanes past the last give |
| `LogprobState.StateKernel` | crates/dash-mlx/src/logprob.rs:136-206 | one chunk carries a row's running state and target logit over its tokens |
| `LogprobState.Pass` | crates/dash-mlx/src/logprob.rs:540-606 | after the last chunk the state is that of every unmasked token |
| `LogprobState.PassGivesContract` | crates/dash-contract/src/logprob.rs:5-15 | the five sums equal their direct definitions, and the log-probability and `ln s - a / s` are the contract's, `-inf` for a target not found |
| `RowDerivative.DualEntropyIs` | crates/dash-contract/src/loss.rs:10-19 | the entropy's derivative along any direction of the logits |
| `RowDerivative.DualLossIs` | crates/dash-contract/src/loss.rs:10-31 | the row loss's derivative with label smoothing and z-loss, the logit of a target not found a constant |
| `LogprobGradient.ThreadgroupSum` | crates/dash-mlx/src/logprob.rs:210-262 | the weights kernel's strided loops and lane tree give the sum of the chunk's weights |
| `LogprobGradient.GradientSums` | crates/dash-mlx/src/logprob.rs:624-650 | chunk by chunk, both sums hold every token but the masked ones and the target |
| `LogprobGradient.GradientFromSums` | crates/dash-mlx/src/logprob.rs:650-658 | `(r w_t - o) / s` without the target's term is `w_t - sum p_j w_j`, and `-sum p_j w_j` where the target is not valid |
| `LogprobGradient.Gradient` | crates/dash-mlx/src/logprob.rs:624-658 | the backward pass gives that gradient for every chunking |
| `LogprobGradient.LogprobAdjoint` | crates/dash-contract/src/logprob.rs:5-30 | that gradient is the adjoint of the log-probability through the hidden state |
| `LossGradient.ForwardRow` | crates/dash-mlx/src/loss.rs:170-224 | a row's outputs come from a finished pass over the whole vocabulary, row i's logit j being `sum_x w(j, x) h(i, x)` |
| `LossGradient.Forward` | crates/dash-mlx/src/loss.rs:170-224 | the blocks of rows give every row its outputs, in order, and every row reports the definition's log-probability, entropy and loss at the logits `hidden[i] . weight[j]` |
| `LossGradient.ForwardIsContract` | crates/dash-mlx/src/loss.rs:170-224 | the log-probability and entropy are the contract's; the loss is the formula's, infinite where the target is not found and its term has a weight, and 0 for an ignored row |
| `LossGradient.FinishedReports` | crates/dash-mlx/src/loss.rs:170-224 | a row's outputs from a finished pass are the definition's |
| `LossGradient.LossIsContract` | crates/dash-contract/src/loss.rs:10-34 | a counted row's loss is the contract's, infinite wherever the target is not found, exactly unless that target is not found and the smoothing is 1 |
| `LossGradient.FullSmoothing` | crates/dash-contract/src/loss.rs:28-31 | one token, no target, smoothing 1: the code's loss is finite, the contract's infinite |
| `LossGradient.TargetRearranged` | crates/dash-mlx/src/loss.rs:244-270 | the target's value built from `q = 1 - p` is the gradient's entry there |
| `LossGradient.ElementIsGradient` | crates/dash-mlx/src/loss.rs:96-119 | the kernel's element from the coefficients A, E, T, C is the gradient of the logit: masked, target or other, counted or ignored, found or not |
| `LossGradient.RowAdjoint` | crates/dash-mlx/src/loss.rs:228-281 | the gradient of a row's logits is the adjoint of its loss, log-probability and entropy together |
| `LossGradient.GradientSum` | crates/dash-mlx/src/loss.rs:228-281 | a row's gradients sum to `2 zLoss lse gl` with a found target, and to what the missing target term leaves without one |
| `LossGradient.ClassesExact` | crates/dash-mlx/src/loss.rs:533-541 | the number of classes is the vocabulary less its masked ids, duplicates removed |
| `LossGradient.BackwardRows` | crates/dash-mlx/src/loss.rs:359-415 | a block of rows over every chunk: its hidden gradient whole, and its share of each chunk's weight rows |
| `LossGradient.Backward` | crates/dash-mlx/src/loss.rs:359-430 | for every chunking and blocking the results are the full products `G W` and `G^T H` |
| `LossGradient.CallAdjoint` | crates/dash-contract/src/loss.rs:1-19 | those products are the adjoint of the whole call along the hidden states and the weight together: row by row the results' gradients against the derivatives of loss, log-probability and entropy along the dual logits |
| `LossGradient.DualLogitsAre` | crates/dash-contract/src/loss.rs:12-19 | the dual sum of `w(j, x) h(i, x)` has the row's logit as its value, and as its derivative the one `LossGradient.CallAdjoint` pairs |
| `LossGradient.IgnoredRow` | crates/dash-contract/src/loss.rs:32-34 | a row that is ignored gets no hidden gradient, whatever flows in |
| `Conv1d.ForwardRun` | crates/dash-mlx/src/conv1d.rs:430-466 | a run with its sliding window writes its own steps' contract outputs and nothing else |
| `Conv1d.Forward` | crates/dash-mlx/src/conv1d.rs:604-630 | the runs give every step its output `act(bias + sum_j w_j h[t - (K - 1) + j])` |
| `Conv1d.RowOfStep` | crates/dash-mlx/src/conv1d.rs:430-466 | every step of every sequence is walked by exactly one row of the launch |
| `Conv1d.SplitOutputs` | crates/dash-contract/src/conv1d.rs:17-22 | a sequence split anywhere and continued from at least K - 1 steps has the whole's outputs |
| `Conv1d.SplitFinalState` | crates/dash-contract/src/conv1d.rs:17-22 | and its final state, while that reaches no further back than the piece's history |
| `Conv1d.SplitFinalStateExact` | crates/dash-contract/src/conv1d.rs:17-22 | on every input, exactly if `min(final, W + T)` is within it, for a final state of any length |
| `Conv1d.TakeLastIsLastSteps` | crates/dash-mlx/src/conv1d.rs:721-740 | the final state taken from the concatenated history is its last W' steps with zeros in front |
| `Conv1d.Update` | crates/dash-mlx/src/conv1d.rs:567-586 | a decoding step gives the last output of the token after the state, and the state shifted by the token |
| `Conv1d.DecodingFollows` | crates/dash-contract/src/conv1d.rs:60-69 | after a prompt of any length every step's output is the whole sequence's, and the state stays the history's last W steps |
| `Conv1dPacked.Convolve` | crates/dash-mlx/src/conv1d.rs:249-350 | bounds are refused exactly unless ordered once narrowed to 32 bits; else every sequence between the narrowed bounds has what a call on it alone gives, outputs and final state (by the batch's own steps: `Conv1dPacked.PackedIs`) |
| `Conv1dPacked.PackedIs` | crates/dash-mlx/src/conv1d.rs:249-350 | step u of a sequence that starts at `cu[s]` has taps on the batch's steps down to `cu[s]`, below that on state s, below that on zeros, and its final state is the last of the same |
| `Bounds.StepInOneSequence` | crates/dash-contract/src/conv1d.rs:34-40 | every step lies in exactly one sequence, empty sequences holding none |
| `Bounds.NarrowedExact` | crates/dash-contract/src/conv1d.rs:34-40 | the verdict on narrowed bounds is the contract's exactly unless bounds outside 32 bits pass |
| `Bounds.FallingBoundsPass` | crates/dash-mlx/src/conv1d.rs:275-285 | `[0, 2^32, T]` falls and passes as `[0, 0, T]` |
| `Conv1dPacked.SequencesAreIndependent` | crates/dash-contract/src/conv1d.rs:34-40 | no step reads another sequence's steps or state |
| `Conv1dBackward.BackwardRun` | crates/dash-mlx/src/conv1d.rs:470-564 | a run, recomputing the pre-activation and looking K - 1 steps past its end, gives its inputs' gradients and its own weight and bias sums |
| `Conv1dBackward.StateGradient` | crates/dash-mlx/src/conv1d.rs:545-564 | the state's gradients from the first run's gradients alone |
| `Conv1dBackward.BackwardSequence` | crates/dash-mlx/src/conv1d.rs:633-674 | the runs of a sequence: dx, dstate (zeros for steps older than K - 1), and row sums that add to dw and db |
| `Conv1dBackward.BackwardKernels` | crates/dash-mlx/src/conv1d.rs:633-674 | the same over a batch, the rows' totals the gradients of the shared weight and bias |
| `Conv1dGradient.ConvolutionAdjoint` | crates/dash-mlx/src/conv1d.rs:470-564 | dx, dstate, dw, db are the adjoint of the convolution with either activation |
| `Conv1dGradient.FinalAdjoint` | crates/dash-contract/src/conv1d.rs:17-23 | and still so with the final state's own gradient added to the history's last steps |
| `Conv1dGradient.SplitGradients` | crates/dash-contract/src/conv1d.rs:18-23 | split anywhere, the second piece's state gradient entering as the first's final-state gradient gives the whole's gradients |
| `Conv1dGradient.SplitParameters` | crates/dash-contract/src/conv1d.rs:18-23 | the pieces' weight and bias gradients add to the whole's |
| `Conv1dGradient.BatchAdjoint` | crates/dash-mlx/src/conv1d.rs:633-674 | what a batch's kernels leave is the adjoint of the batch: every sequence's inputs and state, the rows' totals for the taps and the bias it shares |
| `Conv1dPackedGradient.PackedAdjoint` | crates/dash-contract/src/conv1d.rs:17-40 | packed, the gradients are the adjoint of the call, outputs and final states, their derivatives taken by dual numbers over the batch's own steps: each sequence's own for its steps and its state, the taps' and the bias's added over the sequences |
| `Conv1dPackedGradient.Backward` | crates/dash-mlx/src/conv1d.rs:301-348 | the kernels' pass over every sequence, its final state's gradient joined, and the taps' and bias's gradients added up: the adjoint of the packed call along every direction |
| `GatedDelta.RunStates` | crates/dash-mlx/src/gated_delta/chunk.rs:18-26 | over a run of tokens whose coefficients solve its triangular system, every state of the token rule is the entering state decayed, plus the keys so far with those coefficients, decayed since |
| `GatedDelta.RunOutput` | crates/dash-mlx/src/gated_delta/chunk.rs:18-26 | and every output is `exp(G) q S` and `P u` |
| `GatedDelta.RunFinal` | crates/dash-mlx/src/gated_delta/chunk.rs:18-26 | and the state the run leaves is `exp(G_last) S + (exp(G_last - G) K)^T u` |
| `GatedDelta.OutContinues` | crates/dash-contract/src/gated_delta.rs:10-14 | tokens continued from the state of those before give the whole sequence's outputs |
| `DeltaInverse.Inverse` | crates/dash-mlx/src/gated_delta/chunk.rs:436-458 | the columns by forward substitution make a lower triangular M with `(I + N) M = I` |
| `DeltaInverse.InverseSolves` | crates/dash-mlx/src/gated_delta/chunk.rs:18-26 | `M b` solves `(I + N) u = b` |
| `DeltaInverse.InverseUndoes` | crates/dash-mlx/src/gated_delta/chunk.rs:18-26 | `M (I + N) = I` too |
| `DeltaInverse.InverseAdjoint` | crates/dash-mlx/src/gated_delta/chunk.rs:411-434 | `tril(-M^T dM M^T, -1)` is the adjoint of the inverse's derivative |
| `DeltaScan.ForwardScan` | crates/dash-mlx/src/gated_delta/scan.rs:122-148 | the loop from chunk to chunk keeps every entering state and every `U = u0 - w S`, and ends with the final state |
| `DeltaScan.BackwardScan` | crates/dash-mlx/src/gated_delta/scan.rs:150-178 | the loop back keeps every `dU` and the gradient of the state every chunk leaves, and ends with the first state's |
| `DeltaScanGradient.ColumnAdjoint` | crates/dash-mlx/src/gated_delta/scan.rs:17-25 | for one column of the state those are the adjoint of the scan's derivative |
| `DeltaScanGradient.HeadAdjoint` | crates/dash-mlx/src/gated_delta/scan.rs:17-25 | over all columns `du0 = dU`, `dw = -dU S^T`, `dks = U dS^T`, `dd = sum(dS * S)` and the first state's gradient are the adjoint of the scan, from the gradients of the entering states, of U and of the final state |
| `DeltaChunkGradient.ChunksAdjoint` | crates/dash-mlx/src/gated_delta/chunk.rs:390-434 | the scan's gradients carried through the products with the inverses and the inverse's closed form are the adjoint of the chunks' triangles, values, keys, kept keys, decays and first states together |
| `DeltaInputs.ChunkTokensAre` | crates/dash-mlx/src/gated_delta/chunk.rs:334-364 | the fused normalisation by the mean square gives the tokens of the contract's formula |
| `DeltaChunk.ScanFollows` | crates/dash-mlx/src/gated_delta/chunk.rs:26-29 | with every chunk's inverse, the scan enters every chunk with the token rule's state |
| `DeltaChunk.PaddingKeeps` | crates/dash-mlx/src/gated_delta/chunk.rs:366-388 | zeros after the last token write nothing and decay nothing |
| `DeltaChunk.ChunkedRule` | crates/dash-mlx/src/gated_delta/chunk.rs:343-409 | for any number of tokens and any chunk the chunked rule gives every output and the final state of the rule a token at a time |
| `DeltaStep.TokenStep` | crates/dash-mlx/src/gated_delta/recurrent.rs:319-366 | rows split among any number of simdgroups, norms by lanes, the query's and the key's factors applied to sums: the rule's next state in place, and its output |
| `DeltaStep.Tokenwise` | crates/dash-mlx/src/gated_delta/recurrent.rs:291-374 | a sequence's tokens in turn leave its outputs and its state |
| `DeltaPacked.ChunkPacked` | crates/dash-mlx/src/gated_delta/chunk.rs:224-332 | refused exactly when there is no token or the narrowed bounds are not ordered; else every sequence has the rule's outputs and final state, an empty one its own state |
| `DeltaPacked.StepPacked` | crates/dash-mlx/src/gated_delta/recurrent.rs:80-128 | refused exactly unless the narrowed bounds are ordered; else the same outputs and states |
| `DeltaPacked.PromptThenSteps` | crates/dash-contract/src/gated_delta.rs:10-14 | a prompt in chunks, then steps from the state it left, give the rule's outputs and final state on the whole, wherever the prompt ends |
| `Philox.Generate` | crates/dash-mlx/src/sample.rs:71-86 | the counter and key updated in place over ten rounds are Philox4x32-10's block |
| `Philox.KeySchedule` | crates/dash-mlx/src/sample.rs:74-77 | the key of round n is the key and n Weyl steps of the golden ratio and of the root of 3 less 1 |
| `Philox.ProductWords` | crates/dash-mlx/src/sample.rs:78-81 | the high and the low word of a product are the whole product |
| `Philox.XorDigit` | crates/dash-mlx/src/sample.rs:78-84 | each binary digit of an exclusive or is 1 exactly where the two words' digits differ |
| `Philox.ProductsUndone` | crates/dash-mlx/src/sample.rs:78-81 | each wrapped product by a round multiplier is undone by its inverse modulo 2^32, both ways |
| `Philox.RoundUndone` | crates/dash-mlx/src/sample.rs:74-84 | a round is a bijection of the counters under any key |
| `Philox.Bijective` | crates/dash-mlx/src/sample.rs:71-86 | under one key equal blocks come from equal counters, and every block from some counter |
| `Philox.BlocksNeverShared` | crates/dash-contract/src/sample.rs:85-101 | under one seed blocks are equal exactly for the same group, row and offset |
| `Philox.NoiseThread` | crates/dash-mlx/src/sample.rs:107-123 | a thread writes the elements of its group that lie in the row, none of them written before |
| `Philox.Noise` | crates/dash-mlx/src/sample.rs:107-169 | every element of every row is written once, with word `i % 4` of the block `i / 4` |
| `Scans.TreeCumsum` | crates/dash-mlx/src/sample.rs:252-262 | the doubling scan gives the inclusive sums in `ceil(log2 V)` steps |
| `Scans.PairsCumsum` | crates/dash-mlx/src/sample.rs:222-246 | the tree of pairs over the padded row, walked back, gives the inclusive sums with `ceil(log2 V)` levels |
| `Sample.KthFromSort` | crates/dash-mlx/src/sample.rs:280-283 | the k-th entry of the sorted row, masked ids at `-inf`, is the k-th largest unmasked logit |
| `Sample.NucleusFromSort` | crates/dash-mlx/src/sample.rs:284-300 | where the mass along the sort first reaches p of the whole stands the largest logit of K whose mass, ties whole, reaches it |
| `Sample.ReachedInK` | crates/dash-mlx/src/sample.rs:284-300 | that logit is finite and in K |
| `Sample.Cut` | crates/dash-mlx/src/sample.rs:268-302 | the ids at or above the cut are exactly the contract's P, for each of the three sums |
| `Sample.CutUnique` | crates/dash-contract/src/sample.rs:36-46 | the definition names one pair of cuts |
| `Sample.ExtremesOfP` | crates/dash-contract/src/sample.rs:52-58 | K holds at least k ids, P the largest logit, and at p = 0 only it and its ties |
| `Sample.Draw` | crates/dash-mlx/src/sample.rs:322-477 | which calls are refused; for every other, in the options' own terms: the top-k and top-p cuts are the definition's over `exp((z - m) / T)` (1 / T at most f32's largest); the token is the lowest of the largest `(z - m) / T + g` in P (greedy: the lowest id of the largest logit; no finite logit: the lowest unmasked id), and its log-probabilities are its shares of U's raw, U's tempered and P's tempered exponentials, equal where the contract says |
| `Resize.WindowIsSound` | crates/dash-image/src/lib.rs:79-98 | every window is nonempty, inside the side, shorter than ksize, and its taps weigh more than 0 |
| `Resize.WeightsNormalised` | crates/dash-image/src/lib.rs:93-100 | the weights are not negative and sum to 1 |
| `Resize.FixedTotal` | crates/dash-image/src/lib.rs:99-107 | the fixed-point weights of n taps sum to within n / 2 of 2^22 |
| `Resize.MakeTable` | crates/dash-image/src/lib.rs:79-116 | the loops fill the windows and their weights, the taps buffer used again for each; `ResizeFilter.BlendIsTriangle` says which weights these are |
| `ResizeFilter.BlendIsTriangle` | crates/dash-image/src/lib.rs:68-116 | for any two sizes a place's weights are the whole side's: a triangle about the place's centre `(2 xx + 1) from / (2 to)`, falling linearly to 0 at one place, or at as many as are made into one, over its own sum |
| `ResizeFilter.BlendIsBilinear` | crates/dash-image/src/lib.rs:68-116 | where a side does not shrink a place is the line between the two places about its centre, the ends continued |
| `ResizeFilter.PixelIsBilinear` | crates/dash-image/src/lib.rs:68-145 | and the byte is less than a level from it |
| `Resize.NeverWraps` | crates/dash-image/src/lib.rs:145-149 | while the whole fits 32 bits every step of the accumulator is the exact sum |
| `Resize.PixelBetween` | crates/dash-image/src/lib.rs:118-149 | with balanced weights an output byte lies between the least and greatest byte of its window |
| `Resize.BoundsKeptExactly` | crates/dash-image/src/lib.rs:99-149 | every pixel, on every line and for all bounds, stays within its window's bounds exactly if the window's weights are balanced, a condition on the two sizes |
| `Resize.PixelNearBlend` | crates/dash-image/src/lib.rs:118-149 | while white fits the accumulator an output byte is within `1/2 + 255 n / 2^23` levels of the exact blend of its window's n bytes |
| `Resize.PixelWithinLevel` | crates/dash-image/src/lib.rs:118-149 | which is less than a level while `255 ksize < 2^22` |
| `Resize.FlatKeptExactly` | crates/dash-image/src/lib.rs:99-149 | lines of one value are kept exactly when the fixed-point weights' sum, taken in 32 bits, is close enough to 2^22, windows of any length |
| `Resize.FlatKept` | crates/dash-image/src/lib.rs:99-149 | which it is while `255 ksize < 2^22` |
| `Resize.WhiteLost` | crates/dash-image/src/lib.rs:99-149 | from 2^25 places to 1, white comes out black |
| `Resize.Convolve` | crates/dash-image/src/lib.rs:143-151 | one accumulator over the table's row is the pixel |
| `Resize.Horizontal` | crates/dash-image/src/lib.rs:133-159 | the pass over the columns writes every byte |
| `Resize.Vertical` | crates/dash-image/src/lib.rs:165-183 | the pass over the rows writes every byte |
| `Resize.Resize` | crates/dash-image/src/lib.rs:128-183 | both passes, each skipped where its side is kept; the same image for the same size; which image, on sides that do not shrink: `ResizeFilter.ResizedIsBilinear` |
| `ResizeFilter.ResizedIsBilinear` | crates/dash-image/src/lib.rs:128-183 | an image resized to sides no shorter has every byte less than two levels from its channel's four bytes about the place, weighed by their distances |
| `Resize.ResizeBetween` | crates/dash-image/src/lib.rs:128-183 | through both passes every byte lies between the bounds of the bytes it is made of, wherever each pass that is not skipped has balanced weights at that place |
| `Checkpoint.StackAdjoint` | crates/dash-mlx/src/checkpoint.rs:74-77 | reverse mode over the kept inputs is the adjoint of the whole stack along its input and all its parameters |
| `Checkpoint.Forward` | crates/dash-mlx/src/checkpoint.rs:52-67 | success exactly if every layer runs and every evaluation does; then the output is the composition of the layers, and the kept inputs its prefixes |
| `Checkpoint.Backward` | crates/dash-mlx/src/checkpoint.rs:74-115 | success exactly if the lengths match and every layer, every product and every evaluation succeeds; then plain reverse mode's gradients with every layer's own arrays back; a layer is left with the transform's exactly if it or its product fails and every later layer succeeded |
| `Checkpoint.StopIs` | crates/dash-mlx/src/checkpoint.rs:97-107 | the walk stops in the one layer where it fails, if there is one |
| `Checkpoint.MiddleLeftTraced` | crates/dash-mlx/src/checkpoint.rs:97-107 | a stack of three that runs forward and whose middle product fails: the middle layer alone is left so |
| `Checkpoint.ForwardThenBackward` | crates/dash-mlx/src/checkpoint.rs:52-115 | after a forward run the layers run again, so only a product or an evaluation can fail; else reverse mode's gradients from the prefixes, and every layer as it was |
| `Checkpoint.InputsRun` | crates/dash-mlx/src/checkpoint.rs:52-67 | a layer that ran forward runs again on its kept input |

## Left out

- Resize.PixelNearBlend: sizes whose white fits the 32-bit accumulator; past that the byte has nothing to do with the blend.
- AttentionContract.VisibleIsContract: only where the band fits the kernels, the exact condition of `AttentionBand.KernelBandExact`; elsewhere the kernels hide keys the contract allows.
- AttentionContract.OutIsContract: the same condition.
- AttentionBand.ReachIsContract: lengths an i32 holds, as the arrays' shapes are.
- AttentionBackward.Unpacked: only where the forward pass takes every visible key; elsewhere its sum can be 0 for a query that sees a key, and the backward pass divides by it.
- AttentionPacked.Dispatch: sequences whose picks fit; of the others only the number of rows is stated (AttentionForward.BlockedForward says what each row of one is). AttentionPackedBackward.DispatchBackward likewise.
- AttentionBand.QueriesForExact: sums that overflow are taken to wrap, as in a release build; a debug build panics.
- AttentionForward.BlockedForward: with no query there is no block to join, which the library refuses and the packed calls model (`AttentionPacked.Dispatch`); this method then returns an empty result.
- AttentionBackward.BlockedBackward: the same with no query or no key.
- AttentionBand.KernelBandExact: the ends of blocks and tiles are integers; in the program `k0 + 512` is an i32, which stops Tq and Tk at 2^31 - 512, as `t + RUN - 1` does the convolution's steps and `t + 63` the gated delta rule's.
- AttentionDecode.DecodeHeads: the kernel's own indices of keys and elements are integers, not 32-bit words.
- DeltaChunk.ChunkedRule: one column of the values, since the state's columns never meet; the column slices and the 8 by 8 tiles of the scan's products appear by what they compute.
- DeltaChunkGradient.ChunksAdjoint: the written-out gradients, of the inverses and of the scan, composed; those MLX takes of the elementwise products, decays and outputs around them, and so the identity with the token rule's own derivative, are not modelled.
- DeltaInverse.Inverse: the kernel's forward substitution; the doubling of diagonal blocks, the path without kernels, is not modelled.
- DeltaStep.TokenStep: one lane's column; key heads wider than 256, which run MLX's operations, are not distinguished, and the step's gradient, taken through those operations, is not modelled.
- DeltaInputs.ChunkTokensAre: the scale is given; its default `1 / sqrt(Dk)` is the caller's.
- Resize.MakeTable: the taps are real numbers, not f64, so the last bit of a weight can differ from the program's where f64 rounds.
- Conv1dBackward.BackwardKernels: one channel and at least one step; a launch of no steps does not happen (an empty sequence never reaches the kernels).
- Checkpoint.StackAdjoint: a layer's adjoint-correct product is assumed of the differentiation library, as is that a layer computes the same twice.
- Checkpoint.Backward: which products and evaluations succeed is given; a layer holds its trainable parameters as a sequence; frozen parameters and their paths are part of what the layer computes.
- Philox.Noise: the words alone; the Gumbel variate of a word and the distribution of the draws are not modelled, and Sample.Draw takes the variates as given.
- Sample.Draw: one row; a batch's rows do not meet. NaN and `+inf` logits, unspecified by the contract, are not in the model.
- LossGradient.Forward: each row's loss; the reductions over rows (mean, sum) and the weight's gradient gate are not modelled.
- LogprobState.PassGivesContract: a vocabulary with at least one unmasked token; chosen log-probabilities over an empty vocabulary are not modelled.
- Floating-point rounding, bf16 and f16 conversions, and the error bounds measured for them.
- MLX itself: lazy evaluation, kernel launching and caching, its scan, sort, matrix products and fused attention (`decode_mlx`), which appear by what they compute.
- The reference paths built from MLX operations instead of kernels, where masked logits are set to f32's lowest value.
- JPEG decoding, normalisation to NCHW, the runtimes, the command line, JSON and weight files, adapters and option plumbing: easy beside the above.
