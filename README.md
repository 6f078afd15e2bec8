# OMEGA protocol core in Dafny

This project models the deterministic skeleton of the OMEGA message pipeline and of the
network node that drives it. The pipeline has six operators:

- masking (position-wise XOR with a 32-byte key and a seeded byte stream);
- the byte↔vector codec with zero padding to five components;
- ephemeral key derivation from a frequency and an epoch;
- the path-invariant projection (Pfadinvarianz), an average over a hand-picked set of permutations;
- the multi-scale weight transfer (a moving-average update of three level weights, plus a three-band filter);
- the sweep (a clocked threshold schedule and a sigmoid gate on the mean);
- the resonance filter (dominant FFT bin against a local frequency).

The node keeps an epoch counter and a last-in-first-out buffer that stands in for the
network. It chains the operators on send and on receive.

Vectors are `seq<real>` and bytes are `bv8`. The epoch and f64 bit patterns are `bv64`,
so `epoch += 1` wraps around as a release build does. π is the exact value of the f64 constant.

The code the protocol calls but does not contain is handed to the model as total functions
in the `Platform.Primitives` datatype:

- SHA-256;
- `f64::to_bits`;
- the `StdRng` byte stream;
- the FFT magnitudes;
- `exp` and `cos`;
- `utils::set_frequency`.

The model knows only the facts about them that `Primitives.Valid()` states:

- the FFT and the frequency injection keep the length;
- `cos` lies in [−1, 1];
- `cos 0 = 1`;
- `cos x < 1` on (0, 2π);
- `exp` is positive.

The double kick draws from `thread_rng`. It is a per-call, length-preserving function
parameter.

In two places the code does not do what its comments say (see "## Findings"). The node and
the operators are modelled as the code behaves. Beside each as-written definition stands a
corrected one with the documented property proved about it:

- **θ range.** `MaskingParams.theta` is documented as lying in [0, 2π). An all-ones digest prefix gives exactly 2π (`Types.ThetaReachesTwoPi`). Dividing by 2^64 instead of `u64::MAX` gives the half-open range (`Types.ThetaHalfOpenRange`).
- **Projection idempotence.** The projection is documented as idempotent. For the generated 11-permutation subset it is not. For v = [1,2,3,4,5], the first component is 27/11 after one application and 346/121 after two (`Pfad.IdempotenceFails`). Averaging over all d cyclic shifts, a set closed under composition, is idempotent (`Pfad.CyclicProjectionIdempotent`).

One module per source file:

- `Types` (src/types.rs)
- `Masking` (src/operators/masking.rs)
- `Utils` (src/utils.rs)
- `Pfad` (src/operators/pfadinvarianz.rs)
- `WeightTransferOp` (src/operators/weight_transfer.rs)
- `SweepOp` (src/operators/sweep.rs)
- `Resonance` (src/operators/resonance.rs)
- `Node` (src/node.rs)

Two modules hold what the others share:

- `Platform`: the foreign primitives;
- `Vectors`: arithmetic on `seq<real>`.

The structures the source updates in place are classes: `Sweep`, `WeightTransfer` and
`OmegaNode`. Their methods are proved against specification functions. The loops over
arrays (`Permute`, `Rotate`, `Vectorize`, `Devectorize`, the lowpass filter, the argmax
scan, the permutation average) are methods with loop invariants.

## Model

| member | source | states |
|---|---|---|
| Types.HashInput | src/types.rs:22-24 | the hash input is 16 bytes: the 8 little-endian bytes of omega's bit pattern, then the 8 little-endian bytes of the epoch |
| Types.HashInputInjective | src/types.rs:22-24 | distinct (omega bits, epoch) pairs give distinct hash inputs |
| Types.ThetaFromDigest | src/types.rs:30-35 | theta is the little-endian value of the digest's first 8 bytes, divided by u64::MAX and multiplied by 2π; `ThetaRange` bounds it |
| Types.EphemeralFromFrequency | src/types.rs:19-38 | sigma is exactly the SHA-256 digest of the hash input, and theta lies in [0, 2π] |
| Types.ThetaRange | src/types.rs:31-35 | theta = LE-u64(digest[0..8]) / u64::MAX · 2π lies in [0, 2π] |
| Types.ThetaReachesTwoPi | src/types.rs:11 | an all-ones digest prefix gives theta exactly 2π, outside the documented [0, 2π) |
| Types.ThetaHalfOpenRange | src/types.rs:11 | with the prefix divided by 2^64 instead, theta lies in the documented [0, 2π) for every digest |
| Types.EphemeralDeterministic | src/types.rs:19-38 | equal omega bit patterns and epochs give equal theta and sigma |
| Types.DefaultOmegaParams | src/types.rs:144-168 | the default parameters have epsilon > 0, a non-zero gate width and gamma in [0, 1] |
| Types.DefaultNodeConfig | src/types.rs:179-186 | the default node frequency is positive and its epsilon is positive |
| Types.DefaultLevelsSumToOne | src/types.rs:112-123 | the default level weights 0.2 + 0.5 + 0.3 sum to 1 |
| Masking.Permuted | src/operators/masking.rs:38-47 | byte i becomes data[i] XOR sigma[i mod 32], and the length is kept |
| Masking.Rotated | src/operators/masking.rs:58-63 | byte i is XORed with the i-th draw of the stream seeded from theta's bit pattern |
| Masking.Masked | src/operators/masking.rs:19-29 | mask keeps the length of the message |
| Masking.MaskedAt | src/operators/masking.rs:44-46 | output byte i = message[i] XOR sigma[i mod 32] XOR keystream(i) |
| Masking.MaskIsPositionwise | src/operators/masking.rs:44-46 | output byte i depends only on input byte i and the key: no cross-byte mixing |
| Masking.PermuteInvolution | src/operators/masking.rs:38-47 | permuting twice with the same sigma is the identity |
| Masking.RotateInvolution | src/operators/masking.rs:50-64 | rotating twice with the same theta is the identity |
| Masking.MaskInvolution | src/operators/masking.rs:95-115 | mask(mask(m, p), p) == m for every message and key |
| Masking.SeedPeriodic | src/operators/masking.rs:51-56 | the rotation seed repeats with period 8 |
| Masking.SeedUsesLowBitsOnly | src/operators/masking.rs:51-56 | the seed depends only on bits 0..14 of theta's bit pattern |
| Masking.Permute | src/operators/masking.rs:38-47 | the in-place XOR loop leaves the array equal to Permuted of its old contents |
| Masking.BuildSeed | src/operators/masking.rs:51-56 | the seed loop fills byte i with (bits >> (i mod 8)) & 0xFF |
| Masking.Rotate | src/operators/masking.rs:50-64 | the in-place stream XOR loop leaves the array equal to Rotated of its old contents |
| Masking.Mask | src/operators/masking.rs:19-29 | mask never fails and returns Masked(message, params) |
| Masking.Unmask | src/operators/masking.rs:31-35 | unmask is mask, and it returns m for any masked m |
| Utils.Component | src/utils.rs:22 | each component (b − 128) / 128 lies in [−1, 127/128] |
| Utils.VectorOf | src/utils.rs:15-25 | the vector has length 5 with components in [−1, 127/128] |
| Utils.Vectorize | src/utils.rs:7-25 | fails with VectorizationError exactly on empty input, else returns VectorOf(data) |
| Utils.ByteOf | src/utils.rs:29-41 | the byte is clamp(x·128 + 128, 0, 255) truncated toward zero |
| Utils.Devectorize | src/utils.rs:29-41 | never fails and returns one clamped, truncated byte per component |
| Utils.ByteOfComponent | src/utils.rs:86-93 | devectorising a vectorised byte gives the byte back |
| Utils.DevectorizeVectorize | src/utils.rs:86-93 | devectorize(vectorize(d)) is the first five bytes of d, padded with zeros |
| Utils.Crossings | src/utils.rs:63-79 | over n samples there are at most n − 1 sign changes |
| Utils.ComputeDominantFrequency | src/utils.rs:63-79 | the counting loop returns crossings / len · π: 0 below length 2, at most π(len − 1)/len |
| Utils.ZeroCrossingFrequency | src/utils.rs:63-79 | 0 below two samples, else the number of sign changes (zero counting as non-negative) over the length, times π; `FrequencyBound` bounds it |
| Utils.FrequencyBound | src/utils.rs:63-79 | the zero-crossing frequency lies in [0, π(len − 1)/len] |
| Utils.CrossingsMonotone | src/utils.rs:63-79 | the crossing count only grows as more samples are scanned |
| Utils.SignChangeGivesPositiveFrequency | src/utils.rs:63-79 | one sign change makes the frequency positive |
| Utils.AlternatingIsPositive | src/utils.rs:108-114 | the alternating vector [1, −1, 1, −1, 1] has a positive frequency |
| Pfad.PermutationSubset | src/operators/pfadinvarianz.rs:51-93 | the subset is empty for d = 0, has 2d members for 0 < d < 3 and 2d + 1 members for d ≥ 3 |
| Pfad.SubsetArePermutations | src/operators/pfadinvarianz.rs:61-90 | every generated list is a bijection on 0..d−1 |
| Pfad.ShiftIsPermutation | src/operators/pfadinvarianz.rs:64-70 | each cyclic shift (i + s) mod d is a permutation |
| Pfad.SwapIsOnto | src/operators/pfadinvarianz.rs:76-80 | each adjacent swap is a permutation |
| Pfad.Cycle3IsOnto | src/operators/pfadinvarianz.rs:83-90 | the 3-cycle [1, 2, 0, …] is a permutation |
| Pfad.PermutedVector | src/operators/pfadinvarianz.rs:39-47 | result[i] = v[perm[i]] when in range, else 0, with the length kept |
| Pfad.Projected | src/operators/pfadinvarianz.rs:22-36 | the projection keeps the length and returns v itself for an empty subset |
| Pfad.ProjectedWithinBounds | src/operators/pfadinvarianz.rs:22-36 | averaging over permutations keeps every component between the bounds of v |
| Pfad.SubsetProjectionWithinBounds | src/operators/pfadinvarianz.rs:159-171 | the generated subset's projection stays within min(v) and max(v) |
| Pfad.DefaultSubsetListed | src/operators/pfadinvarianz.rs:96-100 | the default d = 5 subset consists of the 11 listed permutations |
| Pfad.DefaultClosedForm | src/operators/pfadinvarianz.rs:22-36 | the default projection of a 5-vector is the stated weighted average /11 per component |
| Pfad.IdempotenceFails | src/operators/pfadinvarianz.rs:125-137 | apply(apply(v)) ≠ apply(v) for v = [1, 2, 3, 4, 5]: 346/121 against 27/11 |
| Pfad.CyclicShifts | src/operators/pfadinvarianz.rs:4 | the corrected permutation set: the d cyclic shifts i ↦ (i + s) mod d, the identity included |
| Pfad.ShiftsCompose | src/operators/pfadinvarianz.rs:4 | shifting by b and then by a is shifting by (a + b) mod d, so the cyclic shifts are closed under composition |
| Pfad.CyclicProjectionIsMean | src/operators/pfadinvarianz.rs:22-36 | averaging over all d cyclic shifts sets every entry to the mean of v |
| Pfad.CyclicProjectionIdempotent | src/operators/pfadinvarianz.rs:4 | over the cyclic shifts the average is idempotent: P(P(v)) == P(v) for every v |
| Pfad.Pfadinvarianz.New | src/operators/pfadinvarianz.rs:16-19 | new(d) holds PermutationSubset(d), all of them permutations |
| Pfad.Pfadinvarianz.Apply | src/operators/pfadinvarianz.rs:22-36 | the summing loop returns Projected(permutations, v) |
| Pfad.ApplyPermutation | src/operators/pfadinvarianz.rs:39-47 | the indexing loop returns PermutedVector(v, perm) |
| Pfad.GeneratePermutations | src/operators/pfadinvarianz.rs:51-93 | the building loops return PermutationSubset(d) |
| WeightTransferOp.PairsToMap | src/operators/weight_transfer.rs:18-31 | the keys are exactly the listed levels, and the last pair's weight wins for its level |
| WeightTransferOp.Updated | src/operators/weight_transfer.rs:50-55 | the update keeps the level set of the weights |
| WeightTransferOp.UpdatedBetween | src/operators/weight_transfer.rs:53 | with gamma in [0, 1] each weight ends between its old value and its target, and moves if gamma > 0 and it differs from the target |
| WeightTransferOp.UpdatedWeightOf | src/operators/weight_transfer.rs:50-55 | each updated weight is (1 − γ)w + γ·target, with target 0 for an absent level |
| WeightTransferOp.UpdatedTotal | src/operators/weight_transfer.rs:53 | the new total is (1 − γ)·old total + γ·target total |
| WeightTransferOp.UpdatedTotalOne | src/operators/weight_transfer.rs:53 | when the weights and the targets both total 1, the updated weights total 1 |
| WeightTransferOp.UpdatedAtTarget | src/operators/weight_transfer.rs:24 | while the targets equal the weights, the update changes nothing |
| WeightTransferOp.DefaultWeightsTotalOne | src/operators/weight_transfer.rs:122-133 | the default weights sum to 1 |
| WeightTransferOp.Smoothed | src/operators/weight_transfer.rs:76-93 | entry i is the mean of v over the window i − 1 .. i + 1 clipped to the vector, and the length is kept; bounds and fixed points are in the three lemmas below |
| WeightTransferOp.SmoothedWithinBounds | src/operators/weight_transfer.rs:76-93 | the lowpass output stays within the bounds of v |
| WeightTransferOp.SmoothedConstant | src/operators/weight_transfer.rs:76-93 | a constant vector is unchanged by the lowpass filter |
| WeightTransferOp.SmoothedSingleton | src/operators/weight_transfer.rs:76-93 | a one-component vector is unchanged by the lowpass filter |
| WeightTransferOp.BandpassIsHalf | src/operators/weight_transfer.rs:102-106 | bandpass reduces exactly to v / 2 |
| WeightTransferOp.Combined | src/operators/weight_transfer.rs:34-47 | the combined output has the length of v |
| WeightTransferOp.CombinedAt | src/operators/weight_transfer.rs:37-46 | output[i] = Σ weight(level)·projection(level, v)[i] over the three levels |
| WeightTransferOp.BandsClosedForm | src/operators/weight_transfer.rs:34-47 | with the band relations, output[i] = (wμ + wm/2)·v[i] + (wM − wμ)·lowpass[i] |
| WeightTransferOp.BandsAt | src/operators/weight_transfer.rs:96-106 | the detail band is v − trend, the structure band is v/2, and the trend is the lowpass |
| WeightTransferOp.Projection | src/operators/weight_transfer.rs:58-73 | Micro selects the detail band v − lowpass, Meso the structure band, Macro the trend band lowpass, each of the length of v |
| WeightTransferOp.DefaultOutputNonZero | src/operators/weight_transfer.rs:159-171 | the default weights on [1, 2, 3, 4, 5] give first component 0.6 |
| WeightTransferOp.WeightTransfer.constructor | src/operators/weight_transfer.rs:18-31 | weights are built from the pairs and the targets equal them |
| WeightTransferOp.WeightTransfer.UpdateWeights | src/operators/weight_transfer.rs:50-55 | the loop leaves weights == Updated(old weights, targets, γ) and the targets untouched |
| WeightTransferOp.WeightTransfer.Transform | src/operators/weight_transfer.rs:34-47 | updates the weights first, then returns Combined(new weights, v) |
| WeightTransferOp.WeightTransfer.SetTargetWeights | src/operators/weight_transfer.rs:109-114 | the whole target map is replaced, and the weights are untouched |
| WeightTransferOp.WeightTransfer.Apply | src/operators/weight_transfer.rs:140-143 | works on a clone: returns Ok of the transform, and this object is unchanged |
| WeightTransferOp.BuildMap | src/operators/weight_transfer.rs:20-23 | the insertion loop yields PairsToMap(pairs) |
| WeightTransferOp.LowpassFilter | src/operators/weight_transfer.rs:76-93 | the window-summing loop returns Smoothed(v) |
| WeightTransferOp.HighpassFilter | src/operators/weight_transfer.rs:96-99 | returns Highpass(v) |
| WeightTransferOp.BandpassFilter | src/operators/weight_transfer.rs:102-106 | returns Bandpass(v) |
| WeightTransferOp.ProjectToScale | src/operators/weight_transfer.rs:58-73 | returns the band selected by the level |
| SweepOp.FloatRem | src/operators/sweep.rs:64 | f64 `%` with a positive modulus: in [0, y) for x ≥ 0, in (−y, 0] for x < 0 |
| SweepOp.Threshold | src/operators/sweep.rs:57-69 | cosine: τ0 + ½(1 + cos(πt/T))·Δτ; linear: τ0 + ((t mod T)/T)·Δτ; any other name: τ0. Its ranges are the next five lemmas |
| SweepOp.Gate | src/operators/sweep.rs:51-54 | the sigmoid gate lies strictly inside (0, 1) |
| Vectors.Mean | src/operators/sweep.rs:43-48 | 0 for an empty vector, else the sum over the length; `MeanBounds` and `MeanConstant` state what it means |
| Vectors.MeanBounds | src/operators/sweep.rs:43-48 | the mean of a non-empty vector lies between any lower and upper bound of its components |
| Vectors.MeanConstant | src/operators/sweep.rs:43-48 | the mean of a constant non-empty vector is that constant |
| SweepOp.UnknownScheduleIsBase | src/operators/sweep.rs:67 | any schedule other than "cosine" and "linear" yields tau0 at every t |
| SweepOp.LinearRange | src/operators/sweep.rs:63-66 | for t ≥ 0 the linear threshold lies in [tau0, tau0 + deltaTau) |
| SweepOp.CosineRange | src/operators/sweep.rs:59-62 | the cosine threshold lies in [tau0, tau0 + deltaTau] and equals tau0 + deltaTau at t = 0 |
| SweepOp.CosineMovesAfterHalfPeriod | src/operators/sweep.rs:128-139 | with period 100, the cosine threshold at t = 50 is strictly below that at t = 0 |
| SweepOp.DefaultThresholdChanges | src/operators/sweep.rs:128-139 | the default sweep's threshold differs after 50 steps |
| SweepOp.GatedBound | src/operators/sweep.rs:142-150 | scaling by a gate in [0, 1] never increases any component's magnitude |
| SweepOp.SumScale | src/operators/sweep.rs:39 | the sum of gate·v is gate·sum(v) |
| SweepOp.GatedSum | src/operators/sweep.rs:113-125 | a vector with positive sum keeps a positive but strictly smaller sum |
| SweepOp.Sweep.constructor | src/operators/sweep.rs:20-29 | the clock starts at 0, with period 100 and variation 0.2 |
| SweepOp.Sweep.Default | src/operators/sweep.rs:82-86 | the default is tau0 0.5, beta 0.1, "cosine" |
| SweepOp.Sweep.Transform | src/operators/sweep.rs:32-40 | returns gate(mean, threshold at the old t)·v, advances t by exactly 1 and bounds each component by the input's |
| SweepOp.Sweep.CurrentThreshold | src/operators/sweep.rs:72-74 | returns the threshold at the current t and changes nothing |
| SweepOp.Sweep.Reset | src/operators/sweep.rs:77-79 | sets t to 0 |
| SweepOp.Sweep.Apply | src/operators/sweep.rs:93-96 | works on a clone: returns Ok of the transform at the current t, and this clock does not advance |
| Resonance.Scan | src/operators/resonance.rs:58-67 | the scanned index is 0 or below the number of scanned bins |
| Resonance.ScanIsPeak | src/operators/resonance.rs:58-67 | the scan finds the first strictly maximal positive bin in 1..n−1, or 0 when none is positive |
| Resonance.PeakUnique | src/operators/resonance.rs:58-67 | at most one index satisfies the peak characterisation |
| Resonance.PeakIndexCharacterised | src/operators/resonance.rs:58-67 | an index is the peak if and only if it is the one the scan returns |
| Resonance.PeakIndex | src/operators/resonance.rs:58-67 | the chosen bin satisfies IsPeak: the first strictly maximal positive bin among 1 .. len − 1, or 0 when none is positive |
| Resonance.DominantFrequency | src/operators/resonance.rs:40-71 | 0 for an empty vector, else 2π · PeakIndex / len; `FrequencyRange` bounds it |
| Resonance.FrequencyRange | src/operators/resonance.rs:40-71 | the dominant frequency lies in [0, 2π) |
| Resonance.FiveSamplesMissOne | src/operators/resonance.rs:120-131 | a five-sample vector never has dominant frequency exactly 1 |
| Resonance.NarrowBandRejectsFiveSamples | src/operators/resonance.rs:120-131 | with_epsilon(1.0, 0.01) rejects every five-sample vector |
| Resonance.ResonanceOperator.Filtered | src/operators/resonance.rs:29-37 | the output is v when resonant, else zeros of the same length |
| Resonance.ResonanceOperator.ComputeDominantFrequency | src/operators/resonance.rs:40-71 | the argmax loop returns 0 for an empty vector, else 2π·peak/len, within [0, 2π) |
| Resonance.ResonanceOperator.IsResonant | src/operators/resonance.rs:74-77 | true if and only if the dominant frequency is strictly within epsilon of omega |
| Resonance.ResonanceOperator.Apply | src/operators/resonance.rs:29-37 | returns Filtered(v) |
| Resonance.ResonanceOperator.ApplyOp | src/operators/resonance.rs:85-87 | never fails: returns Ok(Filtered(v)) |
| Resonance.New | src/operators/resonance.rs:17-22 | new fixes epsilon at 0.1 |
| Resonance.WithEpsilon | src/operators/resonance.rs:24-26 | with_epsilon stores the given omega and epsilon |
| Resonance.FilteredNonExpansive | src/operators/resonance.rs:29-37 | each output component is at most the input component in magnitude |
| Resonance.NoBandwidthRejects | src/operators/resonance.rs:74-77 | a non-positive epsilon rejects every vector |
| Node.EpochAdvanceChangesHashInput | src/node.rs:177-179 | after an epoch advance, the hash input for the same frequency differs |
| Node.OmegaNode.constructor | src/node.rs:31-54 | epoch 0, empty buffer, local frequency = config.omega, a zero state of length 5, a configured sweep at t = 0 and the default weights |
| Node.OmegaNode.DeriveMaskingParams | src/node.rs:134-136 | the key is derived from (frequency, current epoch) |
| Node.OmegaNode.SendMessage | src/node.rs:57-91 | errors exactly on an empty message, with no state changed; otherwise pushes one transmitted vector, advances the sweep by 1 and updates the weights once |
| Node.OmegaNode.Transmitted | src/node.rs:57-91 | mask with the target's key, vectorize, inject the frequency, sweep, project, weight-transfer with the updated weights, then kick; `TransmittedLength` gives five components |
| Node.OmegaNode.ReceiveMessage | src/node.rs:94-131 | Ok(None) on an empty buffer with nothing changed; otherwise pops the last vector and returns None when non-resonant, else 5 unmasked bytes; epoch, sweep and weights never change |
| Node.OmegaNode.Received | src/node.rs:94-131 | project the popped vector; None when not locally resonant, else its bytes unmasked with the local key; `ReceivedUnmasks` states the inverse |
| Node.OmegaNode.IsResonant | src/node.rs:139-142 | uses the local frequency and params.resonance.epsilon |
| Node.OmegaNode.ResonantLocally | src/node.rs:139-142 | the dominant frequency lies strictly within params.resonance.epsilon of the local frequency; `DefaultEpsilonAgrees` relates it to the operator's test |
| Node.OmegaNode.Broadcast | src/node.rs:150-155 | pushes the vector onto this node's own buffer |
| Node.OmegaNode.PollNetwork | src/node.rs:158-162 | pops the most recently pushed vector, or returns None on an empty buffer |
| Node.OmegaNode.OmegaTransformation | src/node.rs:165-174 | kick, weight transfer, projection, sweep, then resonance, keeping the length |
| Node.OmegaNode.OmegaOutput | src/node.rs:165-174 | kick, weight transfer, projection, sweep gate and resonance filter composed in that order; `OmegaOutputBounded` bounds it |
| Node.OmegaNode.AdvanceEpoch | src/node.rs:177-179 | adds exactly 1 to the epoch and changes nothing else |
| Node.OmegaNode.SetFrequency | src/node.rs:187-190 | sets the local frequency and rebuilds the resonance operator for it |
| Node.OmegaNode.TransferMessageTo | src/node.rs:199-203 | moves self's last vector to the top of the other buffer, is a no-op on empty, and preserves the combined buffer length |
| Node.TransmittedLength | src/node.rs:65-88 | every transmitted vector has five components |
| Node.ReceivedUnmasks | src/node.rs:124-128 | re-masking a delivered message with the receiver's key gives back the bytes of the projected vector |
| Node.SharedKeyAtSameEpoch | src/node.rs:126-128 | bytes a sender masks for the receiver's frequency at the receiver's epoch are recovered exactly by the receiver's unmasking with its own key |
| Node.DefaultEpsilonAgrees | src/node.rs:139-142 | with epsilon 0.1 the node's test agrees with its resonance operator's |
| Node.OmegaOutputBounded | src/node.rs:165-174 | each composite output component is bounded by the projected vector's component |

## Findings

| source | as written | input that shows it | evidently intended | confidence | as-written member | corrected member |
|---|---|---|---|---|---|---|
| src/types.rs:35 | theta = prefix / u64::MAX · 2π, so the largest prefix gives 2π | a digest whose first 8 bytes are all 0xFF | theta in [0, 2π), as documented at src/types.rs:11 | high; not executed | Types.ThetaReachesTwoPi | Types.ThetaHalfOpenRange |
| src/operators/pfadinvarianz.rs:4 | the average runs over the generated 11-permutation subset, which is not closed under composition | v = [1, 2, 3, 4, 5]: first entry 27/11 after one application, 346/121 after two | P ∘ P = P, as documented | high; not executed | Pfad.IdempotenceFails | Pfad.CyclicProjectionIdempotent |

## Left out

- src/operators/doublekick.rs: its output comes from `thread_rng` and float Gram–Schmidt. The node takes each call's kick as a length-preserving function parameter.
- `utils::set_frequency` (src/utils.rs:45-59): sine-based float injection. It is the opaque length-preserving `injectFrequency`.
- The internals of SHA-256, `StdRng`, `rustfft`, `exp` and `cos` are not modelled. The model uses only the range facts in `Primitives.Valid()`.
- IEEE rounding is not modelled: reals are the intended semantics. So the sigmoid never saturates to exactly 0 or 1, and the weight total stays exact.
- "A different epoch gives a different sigma" rests on SHA-256 collision resistance. The model proves only that the hash input differs (`Node.EpochAdvanceChangesHashInput`).
- End-to-end recovery of a sent message is not modelled. The pipeline is lossy: five bytes survive and the float operators perturb them. Whether a particular vector resonates depends on the opaque FFT.
- async/tokio: `broadcast` and `poll_network` never suspend, so they are plain methods.
- The getters `get_weights`, `get_state` and `get_frequency`, the trait members `name` and `lipschitz_constant`, serde derives, src/lib.rs re-exports and examples/simple_node.rs are not modelled.
- HashMap iteration order in `transform` is fixed to Micro, Meso, Macro, since real addition commutes.
- Infallible `Result`s (`OmegaNode::new`, `mask`, `unmask`, `devectorize`, `set_frequency`, `broadcast`, `poll_network`) are used without their never-taken error branch.
- The node ignores its configured weight-transfer and Pfadinvarianz parameters, as the source does: it always uses the defaults.
- WeightTransferOp.BandsClosedForm: the regrouped closed form is stated over bands that satisfy the band relations. It is connected to a concrete v through `BandsAt` and `CombinedAt`, not in a single lemma.
- SweepOp.Sweep.constructor: requires beta ≠ 0. With beta = 0 the source divides by zero and produces NaN or an infinite gate, which reals cannot represent.
- Node.OmegaNode.constructor: requires the configured sweep beta ≠ 0, for the same reason.
- Types.ThetaFromDigest: divides by 2^64 − 1 exactly. In f64, `u64::MAX as f64` is 2^64, and every prefix of at least 2^64 − 2^10 also rounds to 2^64 and gives 2π. In the model only the all-ones prefix gives 2π.
- Node.OmegaNode.AdvanceEpoch: `self.epoch += 1` wraps at 2^64 as a release build does. A debug build panics on that overflow instead; the panic is not modelled.
- The corrected members (`Types.ThetaHalfOpen`, `Pfad.CyclicShifts`) are not wired into the node, which follows the code as written.
- SweepOp.Sweep.Transform: the clock `t` is a natural number. The source's f64 clock loses integer precision after 2^53 steps.
- The euclidean-norm contractivity claims (`lipschitz_constant` 1.0) are not modelled. The model proves the component-wise bounds instead (`SweepOp.GatedBound`, `Resonance.FilteredNonExpansive`, `Pfad.ProjectedWithinBounds`).
