# DAQ analysis core of sbndcode, modelled in Dafny

This project models the sequential logic of the SBND DAQ analyzer
`SimpleDaqAnalysis` and of its placeholder channel map:

- **Baseline estimator** (`SimpleDaqAnalysis::Mode`). This is algorithm FREQUENT
  (Demaine, Lopez-Ortiz and Munro, ESA 2002) with 10 (value, counter) slots.
  `ModeTally` is a functional model of its three inner loops and its final scan.
  `ModeProofs` proves the loop invariants, the FREQUENT heavy-hitter guarantee,
  the majority and flat-waveform results, and the tie and cancellation rules.
  `ModeMethod.Mode` is the imperative loop nest as the source writes it. It is
  proved to compute the functional model.
- **Per-channel pass** (`ProcessChannel`, module `DaqChannel`). It covers the
  channel-range filter, the FFT-buffer resize rule, the waveform copy, the
  running maximum (which starts at 0) and minimum (which starts at `DBL_MAX`),
  the baseline, and the choice between the fixed leading noise window and the
  peak-derived noise sample. `n_noise_samples - 1` is computed in `unsigned`.
- **Per-event pass** (`analyze`, module `DaqEvent`). It covers the start-of-event
  clearing, the digits processed in order, and the cross-channel pass over
  circular neighbours. `DaqEvent.Analyze` and every lemma about it describe the
  corrected program: the start of an event resets each noise sample instead of
  emptying the noise-sample vector (see "## Findings").
- **Channel map** (`ChannelMap`): `Wire2Channel`, both `Channel2Wire`
  overloads, `Board`, `PlaneType` and the board/FEM/channel constants.

Some collaborators' source is not part of this model: the FFT manager, the
peak finder, and the noise sample's RMS, correlation, summed RMS and
peak-derived ranges. They are passed in as opaque functions (`DaqChannel.Externals`).
A noise sample is represented by the constructor arguments it was built from.
Samples are `short` (`Types.Int16`). Channel ids are `raw::ChannelID_t`, taken
as unsigned 32-bit. Waveform values, baseline, minimum and maximum are doubles
holding `short` values, so they are modelled as integers. `DBL_MAX` is a sentinel
(`DaqChannel.MinAdc.DblMax`).

Four behaviours of the code that are easy to miss:
- Mode breaks ties between equal highest counters by taking the lowest slot,
  because the comparison is a strict `>` (Analysis.cc:153).
- Mode returns 0 when every counter has cancelled out, since `ret` starts at 0
  and no slot beats a maximum of 0 (Analysis.cc:146-158).
- Only the waveform, FFT output and peaks of a record are cleared at the start
  of an event (Analysis.cc:166-172). A channel missing from an event keeps its
  previous baseline, extrema, RMS and noise ranges (`DaqEvent.AnalyzeAbsentChannel`).
- Samples and FFT bins are appended to the record (Analysis.cc:257-258, 271-274). A channel named twice in one
  event therefore gets the two waveforms concatenated.

## Model

| member | source | states |
|---|---|---|
| Types.SubU32 | sbndcode/DaqAnalysis/Analysis.cc:285 | `unsigned` subtraction: the result plus the subtrahend is the minuend modulo 2^32, and it is the plain difference when no borrow occurs |
| Types.NarrowToU32 | sbndcode/DaqAnalysis/ChannelMap.hh:27 | the `size_t` to 32-bit cast keeps values below 2^32 and otherwise differs from its input by a multiple of 2^32 |
| ChannelMap.Wire2Channel | sbndcode/DaqAnalysis/ChannelMap.hh:21-23 | every wire maps to slot 0 and FEM 0, at a channel index equal to the wire id |
| ChannelMap.Channel2Wire | sbndcode/DaqAnalysis/ChannelMap.hh:26-28 | the wire is the channel index when it fits 32 bits, and agrees with it modulo 2^32 otherwise |
| ChannelMap.Channel2WireAt | sbndcode/DaqAnalysis/ChannelMap.hh:30-33 | the three-argument overload gives the same wire whatever card and FEM numbers are passed |
| ChannelMap.Board | sbndcode/DaqAnalysis/ChannelMap.hh:36-38 | every FEM is on a board below `n_boards`, that is, board 0 |
| ChannelMap.PlaneType | sbndcode/DaqAnalysis/ChannelMap.hh:43-51 | the plane is 1 or 2, and it is 1 (induction) exactly for wires below 240 |
| ChannelMap.WireRoundTrip | sbndcode/DaqAnalysis/ChannelMap.hh:21-28 | `Channel2Wire(Wire2Channel(w)) == w` for every wire id |
| ChannelMap.AddressRoundTrip | sbndcode/DaqAnalysis/ChannelMap.hh:21-28 | an address survives `Channel2Wire` then `Wire2Channel` if and only if its slot and FEM are 0 and its index fits 32 bits |
| ChannelMap.Wire2ChannelInjective | sbndcode/DaqAnalysis/ChannelMap.hh:21-23 | distinct wires get distinct addresses |
| ChannelMap.PlaneTypeMonotone | sbndcode/DaqAnalysis/ChannelMap.hh:43-51 | the plane number never decreases as the wire number grows |
| ChannelMap.ChannelCount | sbndcode/DaqAnalysis/ChannelMap.hh:53-55 | boards × FEMs per board × channels per FEM is 16 |
| ModeTally.Initial | sbndcode/DaqAnalysis/Analysis.cc:114-115 | both slot arrays start with 10 entries, every value and counter 0 |
| ModeTally.FindValue | sbndcode/DaqAnalysis/Analysis.cc:118-125 | the home is the first slot holding the sample, whatever its counter, or -1 when no slot holds it |
| ModeTally.FindFree | sbndcode/DaqAnalysis/Analysis.cc:127-135 | the taken-over slot is the first with counter 0, or -1 when every counter is positive |
| ModeTally.Decrement | sbndcode/DaqAnalysis/Analysis.cc:139-142 | a homeless sample lowers every positive counter by exactly one and leaves zero counters at zero, never going below zero |
| ModeTally.Step | sbndcode/DaqAnalysis/Analysis.cc:117-144 | one sample keeps both arrays at 10 slots; what it does to the counters is stated by the Step lemmas below |
| ModeTally.Run | sbndcode/DaqAnalysis/Analysis.cc:117-144 | after any prefix of samples both arrays still have 10 slots; its invariants are stated by the Run lemmas below |
| ModeTally.SelectFrom | sbndcode/DaqAnalysis/Analysis.cc:148-156 | the rest of the scan keeps its current value or moves to a later slot whose counter beats the best so far; `ModeProofs.SelectSpec` states which one |
| ModeTally.Select | sbndcode/DaqAnalysis/Analysis.cc:145-158 | the scan returns 0 or the value of a slot with a positive counter; `ModeProofs.SelectSpec` states which one |
| ModeTally.ModeOf | sbndcode/DaqAnalysis/Analysis.cc:112-158 | no contract of its own; what the estimate is is stated by `ModeProofs.ModeInInput`, `MajorityMode`, `ConstantMode`, `DistinctSamplesCancel` and `ModeMethod.Mode` |
| ModeProofs.StepKeepsInv | sbndcode/DaqAnalysis/Analysis.cc:117-144 | one sample preserves the invariant that a slot repeating an earlier slot's value has counter 0 |
| ModeProofs.StepSum | sbndcode/DaqAnalysis/Analysis.cc:136-143 | a sample with a home adds 1 to the counter sum; a homeless one removes exactly 10, so no counter underflows |
| ModeProofs.StepCountOf | sbndcode/DaqAnalysis/Analysis.cc:117-143 | a housed sample adds 1 to its own value's count and leaves the others alone; a homeless sample's value had count 0, and every count drops by at most 1 |
| ModeProofs.StepPositiveSlots | sbndcode/DaqAnalysis/Analysis.cc:126-137 | a slot counted after a step either took the sample or was already counted with the same value |
| ModeProofs.RunInvariant | sbndcode/DaqAnalysis/Analysis.cc:117-144 | throughout the loop: no two slots with positive counters hold the same value, and every counted value occurs in the samples |
| ModeProofs.RunSum | sbndcode/DaqAnalysis/Analysis.cc:117-144 | counter sum + 11 × (homeless samples) equals the number of samples consumed |
| ModeProofs.RunCountOf | sbndcode/DaqAnalysis/Analysis.cc:117-144 | each value's count is at most its number of occurrences and at least that number minus the homeless samples |
| ModeProofs.CountersBounded | sbndcode/DaqAnalysis/Analysis.cc:114-144 | the counter sum, hence every counter, never exceeds the number of samples consumed |
| ModeProofs.FrequentGuarantee | sbndcode/DaqAnalysis/Analysis.cc:111-144 | a value occurring more than n/11 times in n samples ends in a slot with a positive counter |
| ModeProofs.SelectSpec | sbndcode/DaqAnalysis/Analysis.cc:145-158 | the scan returns 0 when every counter is 0, else the value of the lowest-indexed slot among those with the highest counter |
| ModeProofs.ModeInInput | sbndcode/DaqAnalysis/Analysis.cc:146-158 | the estimate is 0 when all counters have cancelled, otherwise a value that occurs in the samples |
| ModeProofs.MajorityMode | sbndcode/DaqAnalysis/Analysis.cc:112-158 | a value occurring in more than half of the samples is the estimate |
| ModeProofs.ConstantMode | sbndcode/DaqAnalysis/Analysis.cc:112-158 | a non-empty flat waveform of level c has estimate c |
| ModeProofs.DistinctSamplesCancel | sbndcode/DaqAnalysis/Analysis.cc:138-158 | 11 pairwise distinct samples cancel every counter, so the estimate is 0 even when 0 is not among them |
| ModeExamples.StaleSlotDecidesTie | sbndcode/DaqAnalysis/Analysis.cc:120-156 | on 1..11, 7, 3 the repeated values are counted in their stale slots and the tie goes to the lower one, giving 3 (first-free placement would give 7) |
| ModeMethod.Mode | sbndcode/DaqAnalysis/Analysis.cc:112-159 | the nested loops compute the functional model; the result is 0 or an input value, and it is any value making up a strict majority |
| DaqChannel.RunningMax | sbndcode/DaqAnalysis/Analysis.cc:250-254 | the kept maximum is max(0, samples): non-negative, at least every sample, and either 0 or a sample |
| DaqChannel.RunningMin | sbndcode/DaqAnalysis/Analysis.cc:251-255 | the kept minimum is `DBL_MAX` exactly for no samples, otherwise a sample no larger than any other |
| DaqChannel.FixedNoiseWindow | sbndcode/DaqAnalysis/Analysis.cc:283-285 | the fixed window starts at 0 and ends at `n_noise_samples - 1`, wrapping to 2^32 - 1 when `n_noise_samples` is 0 |
| DaqChannel.ChooseNoiseSample | sbndcode/DaqAnalysis/Analysis.cc:282-290 | mode 0 uses exactly the fixed window and the baseline, independent of the waveform; any other mode uses the peak list, the baseline and the sample count |
| DaqChannel.PeaksFor | sbndcode/DaqAnalysis/Analysis.cc:277-280 | no contract of its own; the peak finder is an opaque function, run on the accumulated waveform and the mode baseline; how its peaks are used is stated by `NoiseFor` |
| DaqChannel.NoiseFor | sbndcode/DaqAnalysis/Analysis.cc:282-290 | the stored noise sample carries the digit's mode as baseline; in mode 0 it is the fixed window whatever the peaks, otherwise it is built from the peaks found and the sample count |
| DaqChannel.RealParts | sbndcode/DaqAnalysis/Analysis.cc:271-274 | one real part per FFT bin, in bin order |
| DaqChannel.ImagParts | sbndcode/DaqAnalysis/Analysis.cc:271-275 | one imaginary part per FFT bin, in bin order |
| DaqChannel.UpdateRecord | sbndcode/DaqAnalysis/Analysis.cc:248-293 | an accepted digit appends its samples to the waveform, grows both FFT parts by the same number of bins, sets the baseline to the samples' mode, max/min to their running extrema as above and, in mode 0, the fixed window as noise ranges; neighbour metrics are left alone |
| DaqChannel.ProcessChannel | sbndcode/DaqAnalysis/Analysis.cc:241-294 | a channel id at or beyond `n_channels` leaves the state unchanged; otherwise only that channel's record and noise sample change, and the FFT buffer size becomes the sample count |
| DaqEvent.LastChannel | sbndcode/DaqAnalysis/Analysis.cc:184 | the previous channel lies in [0, n) and is i - 1 modulo n |
| DaqEvent.NextChannel | sbndcode/DaqAnalysis/Analysis.cc:185 | the next channel lies in [0, n) and is i + 1 modulo n |
| DaqEvent.NeighboursInverse | sbndcode/DaqAnalysis/Analysis.cc:183-185 | next(last(i)) == i and last(next(i)) == i |
| DaqEvent.LastIsPredecessor | sbndcode/DaqAnalysis/Analysis.cc:184 | last(i) == (i + n - 1) mod n, so last(0) == n - 1 |
| DaqEvent.Construct | sbndcode/DaqAnalysis/Analysis.cc:45-63 | the analyzer starts with one record and one noise sample per channel, and with a static FFT size when one is configured |
| DaqEvent.StartEventAsWritten | sbndcode/DaqAnalysis/Analysis.cc:166-173 | as written, the start of an event keeps n records but leaves the noise-sample vector empty |
| DaqEvent.AsWrittenNoiseStoreOutOfRange | sbndcode/DaqAnalysis/Analysis.cc:173-285 | after that start, the noise store for any accepted channel indexes past the end of the vector |
| DaqEvent.ClearRecord | sbndcode/DaqAnalysis/Analysis.cc:167-171 | the waveform, both FFT parts and the peaks are emptied, and every other field of the record is kept |
| DaqEvent.StartEvent | sbndcode/DaqAnalysis/Analysis.cc:166-173 | corrected start: every channel's waveform, FFT parts and peaks are emptied, every other field is kept, and each channel gets a default noise sample |
| DaqEvent.ProcessAll | sbndcode/DaqAnalysis/Analysis.cc:177-180 | processing the digits in order keeps one record and one noise sample per channel |
| DaqEvent.Accepted | sbndcode/DaqAnalysis/Analysis.cc:241-242 | the accepted digits are exactly those of the event with a channel id below `n_channels`, each kept as often as it occurs |
| DaqEvent.AcceptedAppend | sbndcode/DaqAnalysis/Analysis.cc:177-181 | filtering a concatenation of digit lists is the concatenation of the filtered lists, so the accepted digits keep the event's order |
| DaqEvent.ProcessAllIgnoresRejected | sbndcode/DaqAnalysis/Analysis.cc:177-180 | dropping the digits of out-of-range channels leaves the result of the event unchanged |
| DaqEvent.ProcessAllUntouched | sbndcode/DaqAnalysis/Analysis.cc:177-180 | a channel no digit names keeps its record and noise sample |
| DaqEvent.ProcessAllDistinct | sbndcode/DaqAnalysis/Analysis.cc:177-180 | for an accepted channel named by one digit only, its record and noise sample depend only on its own digit and its record before the event |
| DaqEvent.CrossPassLoop | sbndcode/DaqAnalysis/Analysis.cc:183-198 | the neighbour loop keeps one record per channel and leaves the noise samples and FFT buffer alone |
| DaqEvent.CrossChannel | sbndcode/DaqAnalysis/Analysis.cc:183-198 | all channels' metrics computed at once from the records before the pass, keeping one record per channel |
| DaqEvent.WithMetrics | sbndcode/DaqAnalysis/Analysis.cc:187-197 | one iteration of the neighbour loop changes only the four neighbour metrics of its channel; what it reads is stated by `WithMetricsReads` |
| DaqEvent.WithMetricsReads | sbndcode/DaqAnalysis/Analysis.cc:188-197 | a channel's metrics depend only on its own record and noise sample and on the waveforms and noise samples of its two circular neighbours; every other channel may differ |
| DaqEvent.LoopIterationReadsPrePass | sbndcode/DaqAnalysis/Analysis.cc:183-198 | midway through the loop, iteration i computes the same metrics as on the state before the pass, because earlier iterations wrote only metric fields |
| DaqEvent.CrossPassLoopIsParallel | sbndcode/DaqAnalysis/Analysis.cc:183-198 | the sequential loop gives the same result as the all-at-once pass |
| DaqEvent.CrossPassSpec | sbndcode/DaqAnalysis/Analysis.cc:183-198 | the pass changes only the four neighbour metrics; each correlation and summed RMS pairs channel i with (i - 1) mod n or (i + 1) mod n, read from the state before the pass |
| DaqEvent.Analyze | sbndcode/DaqAnalysis/Analysis.cc:161-201 | an event (with the corrected start of "## Findings") keeps one record per channel and advances the event counter by one |
| DaqEvent.AnalyzeAcceptedChannel | sbndcode/DaqAnalysis/Analysis.cc:166-293 | for an accepted channel named by one digit only, its waveform is exactly its samples, its baseline their mode, its maximum and minimum the running extrema of its samples, its FFT parts equally long, and in mode 0 its noise ranges the fixed window |
| DaqEvent.AnalyzeAbsentChannel | sbndcode/DaqAnalysis/Analysis.cc:166-172 | a channel the event does not name ends with empty waveform, real and imaginary FFT output and peaks but keeps its previous baseline, extrema, RMS and noise ranges |
| DaqEvent.FlatDigit | sbndcode/DaqAnalysis/Analysis.cc:250-267 | a flat non-empty digit of level c gets baseline c, minimum c and maximum max(0, c) |
| DaqEvent.DefaultChannelCount | sbndcode/DaqAnalysis/Analysis.cc:103 | the default `n_channels` of 16 equals the channel count the channel map lays out |

## Left out

- FFT execution and its outputs (ROOT `TFFTReal` behind `FFTManager`) are an opaque function of the samples. What `Execute` does on an empty buffer is not modelled. The FFT manager's default buffer size is a parameter of `DaqEvent.Construct`.
- The peak finder, noise RMS, correlation, summed RMS and the ranges of a peak-derived noise sample are opaque functions. Their code is not part of this model and their arithmetic is floating point. The fields of `Peak` stand in for whatever the peak finder records.
- The ranges of a noise sample built from explicit ranges are taken to be exactly those ranges. The noise sample code is not part of this model.
- Configuration parsing, TTree output, verbose JSON printing and the Redis telemetry push are framework I/O and are not modelled. `frame_to_dt`, `verbose`, `n_events`, `redis` and the producer name are not in `DaqChannel.Config`.
- ModeMethod.Mode: counters are unbounded naturals, not 32-bit `unsigned`. `ModeProofs.CountersBounded` shows that no counter exceeds the number of samples, so a wrap needs at least 2^32 samples.
- DaqEvent.Analyze: the event counter `_event_ind` is unbounded and does not wrap.

## Findings

| source | as written | input that shows it | evidently intended | confidence | as-written member | corrected member |
|---|---|---|---|---|---|---|
| sbndcode/DaqAnalysis/Analysis.cc:173 | `_noise_samples.clear()` empties the vector, then line 285 or 289 stores `_noise_samples[channel]`. Lines 188-197 also read `_noise_samples[i]` for every channel. Every one of these indexes past the end of an empty `std::vector`. | any event with one digit whose channel id is below `n_channels`, for example channel 0 with `n_channels` = 16 | reset each of the `n_channels` noise samples to a default value while keeping the vector's size | not executed; high, assuming `_noise_samples` is a `std::vector` as its construction with `n_channels` elements suggests (its declaration is in Analysis.h, which is not part of this model) | DaqEvent.AsWrittenNoiseStoreOutOfRange | DaqEvent.StartEvent |
