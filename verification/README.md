# BruteFIR in Dafny

BruteFIR is a real-time convolution engine: filters with very long impulse responses are split into
partitions, processed block by block in the frequency domain by several threads, and fed by and to
sound devices. This project models its algorithms and proves what they are for.

Samples are exact real numbers or integers, because rounding is not the subject. Code that changes
state is modelled by classes and methods with loops, as the program has it; each method is proved
against a specification, and the specification's own properties are proved as lemmas. The threads are
modelled as a state machine in which they interleave freely.

| file | subject |
|---|---|
| Sums, Totals, Division, Sequences | finite sums, counts, quotients and remainders, blocks of a stream |
| Convolution | direct and circular convolution, the overlap-save identity |
| PartitionedFilter | one filter: ring of input spectra, pre-delay, block counter, loop bound and zero flags |
| PartitionedFir, FilterRun | coefficient loading, input framing, and the theorem that whole runs are direct-form FIRs |
| Cascade, Network | the evaluation buffer, and all filters of a process feeding each other |
| SubsampleDelay | the streaming subsample delay line |
| Spectrum, Inversion | half-complex spectra: the ordered product is the spectrum of the circular convolution; the inverse transform |
| SpectrumLayout, SpectrumForms, LayoutRoundTrip | the interleaved-by-four layout, the scalar, in-place, vector and ordered product loops |
| Representation | what each operation on spectral buffers does to the time sequences they stand for |
| Morphism, LayoutRun | the partitioned filter run on layout-order spectra |
| Pipeline, PipelineSafety, PipelineTheorems, PipelineProgress | input, filter and output threads over counting semaphores, for any number of filters |
| Stride, DelayLine | interleaved buffers and the two-mode delay buffer as a queue |
| FilterGraph, LoadBalance | loop check, processing order, distribution of filters over processes |
| CallbackIo | block accounting of callback I/O |
| Quantiser, DitherTable | requantisation, error feedback, the shared random table |
| Pcm, PcmStream | integer PCM in both byte orders, strided round trips |
| BufferFormat | layout of a sound buffer shared by several devices |

How the main results fit together. `FilterRun.RunFilter` runs the modelled loop body of
`filter_process`, input framing included, over whole streams and states that every output block is the
direct-form FIR; `Network.RunNetwork` does so for all filters of a process, where filters read channels
and filters that are processed before them. Both work on the time sequences that spectral buffers stand
for. `LayoutRun.RunLayouts` runs the same filter on half-complex spectra in layout order and states what
they stand for; `Representation` justifies each buffer operation, down to the loops over single quads of
reals. Nothing is used of cosine and sine but their addition theorems and the values at half and whole
turns, and, for the inverse transform (`Inversion.InverseOfTransform`), that the angle is a primitive
one. `PipelineTheorems` and `PipelineProgress` quantify over all runs of the step relation of `Pipeline`;
a half-buffer carries the number of the period whose data it holds, so exclusion and order are statements
about the state. `DelayLine.Run`, `CallbackIo.Play`, `DitherTable.RunSchedule` and `Quantiser.QuantiseRun`
state their properties over runs of any length.

Where the code does less than one could expect, the failing input and the exact condition are proved:

- The ring index survives the wrap of the 32-bit block counter if and only if the number of blocks
  divides 2^32 (`PartitionedFilter.WrapHarmlessIff`).
- A new delay buffer is large enough if and only if its initial delay fits in what is allocated for the
  maximum (`DelayLine.SizesEnough`); otherwise the first block overruns it. The configuration checks a
  delay against a maximum that is set (src/bfconf.c:1465-1471), but the callers then add half the length
  of the subsample filters to both (src/dai.c:244-252, src/bfrun.c:1114-1122, src/bfrun.c:1147-1156), and
  -1, which stands for no maximum, becomes a maximum: with a half length of two or more, a channel
  without subdelay and without a maximum delay gets buffers that are too small (`DelayLine.CallersFit`).
  With a half length of one the buffers are large enough, but the maximum is zero and the channel loses
  its whole delay (`DelayLine.DelayLost`). The channel gets the delay that is asked for if and only if a
  maximum is set or nothing is added (`DelayLine.CallersDelay`).
- The recursive loop check need not end on a graph that it is there to refuse: with filter 0 feeding a
  loop of filters 1 and 2 the first search never returns (`FilterGraph.LoopCheckDiverges`). A search ends
  with no if and only if neither the searched filter nor any cycle can be reached
  (`FilterGraph.EndsWithNo`), and with yes if and only if taking at every filter the first output behind
  which the search does not end with no leads to the searched filter (`FilterGraph.EndsWithYes`). The
  whole check accepts exactly the acyclic graphs (`FilterGraph.LoopCheckExact`), refuses exactly those
  where the first filter with a cycle ahead is so led back to itself (`FilterGraph.RefusedIff`), and ends
  on no others (`FilterGraph.CheckEndsIff`).
- Undithered rounding counts an overflow for every sample beyond the range, but also for the samples at
  the edges of the range, which it rounds properly (`Quantiser.OverflowCounted`); the counter equals the
  number of saturated samples if and only if there are none at the edges (`PcmStream.OverflowsAre`).
- With dither a clipped sample is compared with the largest overflow so far before dither is added, but
  recorded with it (src/dither_funs.h:38-39, src/dither_funs.h:52-53). The record becomes smaller if and
  only if the sample exceeds it without dither and not with it (`Quantiser.Feedback.Real2IntHpTpdf`,
  `Quantiser.PeakShrinks`).
- Callbacks count the bytes of the channels in use (src/dai.c:1557, src/dai.c:1586) against a half that
  holds all open channels (src/dai.c:535). The callbacks of a period fill the half if and only if all open
  channels are in use (`CallbackIo.FilledIff`, `BufferFormat.PeriodFillsIff`). The first wait for the
  filters finds a period triggered if and only if a whole number of callbacks, at most 2P/b - 1, fills the
  half (`CallbackIo.FirstWaitIff`); then every later wait does, and the delay is constant
  (`CallbackIo.Play`). With a callback for every period that again means all open channels, and with one
  of two channels in use the output waits for ever (`CallbackIo.UnusedChannelBlocks`).
- Callbacks copy the samples to their places in the layout if and only if, with interleaving, all open
  channels are in use, and without, all bytes of a sample are significant or there is a single channel
  (`BufferFormat.CallbackFitsIff`): the layout counts the bytes of a sample (src/dai.c:532), the copying
  without interleaving its significant bytes (src/dai.c:1567, src/dai.c:1612).
- The dither table is longer than a block whenever the sampling rate is at least a block; otherwise if and
  only if ten seconds of all channels, or what a limit on the table leaves of them, are
  (`DitherTable.TableReaches`): the least spacing is cut down to a block, not raised to it
  (src/dither.c:75-78). One channel at 8000 samples a second with blocks of 131072 gets 80001 entries.

## Model

| member | source | states |
|---|---|---|
| `Convolution.OverlapSave` | src/fftw_convolver.c:519-566 | with coefficients in the second half of the buffer, the first half of the circular convolution of a frame is the direct sum over the frame's own samples |
| `Convolution.OverlapSaveStream` | src/fftw_convolver.c:164-187 | the frame [previous block, current block] makes that half the FIR of the stream at the position of the current block, for every stream and every position, the silent start included |
| `PartitionedFilter.WrapHarmlessIff` | src/bfrun.c:1529 | false for some block counts: the slot index survives the wrap of the 32-bit block counter if and only if n_blocks divides 2^32 |
| `PartitionedFilter.RingIndex` | src/bfrun.c:1658 | slot indices computed from the unsigned counter name the slot of the block `offset` blocks away, before the wrap or whenever the wrap is harmless |
| `PartitionedFilter.SteadyScan` | src/bfrun.c:1529 | with a steady delay a slot is not overwritten while a block may still look back on it (cblocks + delay <= n_blocks) |
| `PartitionedFilter.RingRead` | src/bfrun.c:1657-1661 | the slot i blocks back holds the frame that is delay + i blocks old, silence before the start |
| `PartitionedFilter.RingStore` | src/bfrun.c:1588-1607 | storing a frame delay slots ahead keeps every slot equal to the frame last written to it |
| `PartitionedFilter.SilentAdvance` | src/bfrun.c:1499-1504 | advancing procblocks never lets the partition loop miss a frame that is not silent |
| `PartitionedFilter.SilentAfter` | src/bfrun.c:1674-1676 | resetting procblocks after a silent result is safe: whatever later loops skip is silent |
| `PartitionedFilter.LoopOutput` | src/bfrun.c:1657-1663 | the sum over the slots that the loop visits equals the sum over all partitions |
| `PartitionedFilter.FilterState.constructor` | src/bfrun.c:1084-1086 | a fresh filter state: empty history, no zero flag set, the invariant established |
| `PartitionedFilter.FilterState.StoreFrame` | src/bfrun.c:1588-1607 | the slot gets the scaled mix of the inputs and no other slot changes, whether the mix is computed or, with every input flagged silent, the slot is only cleared; set zero flags stay truthful |
| `PartitionedFilter.FilterState.AddPartitions` | src/bfrun.c:1657-1663 | the loop over partitions 1 .. adds up to the partition sum although slots flagged silent are skipped |
| `PartitionedFilter.FilterState.Convolve` | src/bfrun.c:1616-1681 | one and several blocks, in place or not, with coefficients or with the unit pulse: the output is the partition sum and the loop bound is reset only after silence |
| `PartitionedFilter.FilterState.ProcessBlock` | src/bfrun.c:1498-1681 | every block of every history: the output is the sum over all partitions of the frame delay + i blocks old, with powersave or without |
| `PartitionedFir.LoadCoeff` | src/bfconf.c:2061-2079 | a tap sequence is cut into partitions of filter_length taps, short and empty last partitions included |
| `PartitionedFir.OpsLawful` | src/bfrun.c:1641-1663 | silent buffers convolve, add and mix to silence, which is what powersave relies on |
| `PartitionedFir.SlicesFir` | src/bfconf.c:2061-2079 | the FIRs of the slices, each delayed by its position, add up to the FIR of all the taps |
| `PartitionedFir.FullSumFir` | src/bfrun.c:1641-1663 | the first half of the inverse transform of the partition sum is the direct FIR of the taps that the partitions cover |
| `FilterRun.InputChannel.NextBlock` | src/fftw_convolver.c:164-187 | the two alternating time buffers always present the window [previous, current] of the input stream |
| `FilterRun.InputChannel.TransformFrame` | src/bfrun.c:1475-1486 | the frequency buffer stands for the frame whether it was transformed or recognised as silent |
| `FilterRun.EnterBlocks` | src/bfrun.c:1430-1489 | one period's input: every channel's frequency buffer stands for the window [previous, current] of the channel, and set zero flags, kept from period to period, are truthful |
| `FilterRun.MixWindows` | src/bfrun.c:1588-1602 | mixing the channels' frames gives the frame of the mixed stream |
| `FilterRun.RunBlock` | src/bfrun.c:1498-1681 | block t of a run is the FIR of the whole stream, and the history grows by just this block |
| `FilterRun.RunFilter` | src/bfrun.c:1430-1681 | for every input, every set of channels, every choice of coefficients block by block and every fixed pre-delay, all output samples are those of the direct-form FIR of the whole stream, late by the pre-delay; a negative pre-delay is none, and one of n_blocks or more is n_blocks - 1; powersave makes no difference |
| `FilterRun.StageBlockIsDirect` | src/bfrun.c:1506-1529 | a block that the partitioned filter makes is, sample by sample, the FIR late by the pre-delay, cut to the partitions that fit in the ring behind it |
| `FilterRun.PlainFir` | src/bfrun.c:1506-1529 | one coefficient set that fits in the ring behind the pre-delay: output sample p is the FIR of the mixed stream at p less the pre-delay's blocks |
| `FilterRun.PlainFirClamped` | src/bfrun.c:1510-1526 | a negative pre-delay acts as none; one beyond the ring leaves the first partition of the taps, n_blocks - 1 blocks late |
| `Cascade.EvalBuffer.ConvolveEval` | src/fftw_convolver.c:404-426 | the one-and-a-half-size buffer presents [previous, current] block of the upstream output |
| `Cascade.EvalBuffer.Evaluate` | src/bfrun.c:1532-1564 | the same when silent upstream outputs are only flagged, through the one scratch buffer that all filters share |
| `Cascade.UpstreamIs` | src/bfrun.c:1542-1547 | mixing the output buffers of any number of filters gives the current block of the mix of their whole outputs |
| `Cascade.EvalBlock` | src/bfrun.c:1532-1564 | the frame handed to a filter is the window of the mix of the whole outputs of all the filters that it reads |
| `Network.RunNetwork` | src/bfrun.c:1430-1681 | any number of filters that read channels and any earlier filters: every block of every filter is that of the direct-form FIR of its whole input, which is itself made of channels and direct-form outputs |
| `Network.OutputIsFir` | src/bfrun.c:1498-1681 | sample by sample, a filter's whole output is the FIR of its whole input, late by the pre-delay in blocks: none when negative, n_blocks - 1 when larger |
| `Network.InputSample` | src/bfrun.c:1532-1602 | every sample that a filter mixes is the sum of the samples of all its channels, each scaled, and of the outputs of all filters that it reads, each scaled |
| `Network.SeriesInput` | src/bfrun.c:1532-1582 | of two filters in series the second one's input is the scaled output of the first: its output is the FIR of the FIR |
| `SubsampleDelay.Line.FilterBlock` | src/delay.c:425-432 | one block: first half of the convolved [rest, block], and the block as the new rest |
| `SubsampleDelay.Line.Update` | src/delay.c:411-434 | a fragment is filtered in place as part of the whole stream; subdelays outside the bank leave it alone |
| `SubsampleDelay.RunFragments` | src/delay.c:411-434 | any fragments whose lengths are multiples of the block give the direct convolution of the whole stream, wherever the boundaries are |
| `Spectrum.TransformOfCirc` | src/fftw_convfuns.h:534-560 | the transform of a circular convolution is bilinear in the transforms of its factors |
| `Spectrum.SpectrumOfCirc` | src/fftw_convolver.c:744-771 | the ordered half-complex product of two spectra is the spectrum of the circular convolution, from the addition theorems alone |
| `Inversion.InverseOfTransform` | src/fftw_convolver.c:404-426 | the unnormalised inverse of the half-complex transform gives back the sequence times its length, for any primitive angle |
| `Inversion.TransformInjective` | src/fftw_convolver.c:404-426 | a half-complex spectrum determines its sequence |
| `SpectrumLayout.LayoutInjective` | src/fftw_convfuns.h:22-266 | the interleaved-by-four layout and the ordered spectrum determine each other |
| `SpectrumLayout.MixSample` | src/fftw_convfuns.h:24-258 | the code for one, two, three and four buffers and the general loop compute the same scaled sum |
| `SpectrumLayout.MixScaleInput` | src/fftw_convfuns.h:22-266 | INPUT mode leaves the layout of the mixed ordered spectra |
| `SpectrumLayout.MixScaleOutput` | src/fftw_convfuns.h:268-485 | OUTPUT mode leaves the ordered spectrum whose layout is the mix of the inputs |
| `LayoutRoundTrip.InputThenOutput` | src/fftw_convfuns.h:21-494 | OUTPUT undoes INPUT |
| `LayoutRoundTrip.OutputThenInput` | src/fftw_convfuns.h:21-494 | INPUT undoes OUTPUT |
| `SpectrumLayout.ProductOfLayouts` | src/fftw_convfuns.h:534-560 | the product in layout order, with frequencies 0 and n/2 corrected, is the layout of the ordered half-complex product |
| `SpectrumLayout.Convolve` | src/fftw_convfuns.h:534-560 | the convolution loop computes the product in layout order |
| `SpectrumLayout.ConvolveInplace` | src/fftw_convfuns.h:503-531 | the in-place loop computes the same from what the buffer held before |
| `SpectrumLayout.ConvolveAdd` | src/fftw_convfuns.h:563-590 | the adding loop adds the same to what the output held |
| `SpectrumLayout.SseConvolveAdd` | src/convolver_xmm.c:11-34 | the four-lane vector form equals the scalar adding loop |
| `SpectrumForms.Sse2ConvolveAdd` | src/convolver_xmm.c:37-62 | the two-lane vector form equals it half quad by half quad |
| `SpectrumForms.ConvolveInplaceOrdered` | src/fftw_convolver.c:744-771 | the ordered in-place loop computes the half-complex product although it overwrites its operand pair by pair |
| `SpectrumForms.DiracConvolve` | src/fftw_convfuns.h:606-620 | alternating signs and 1/n on every quad, nothing else of the output kept |
| `SpectrumForms.DiracConvolveInplace` | src/fftw_convfuns.h:592-604 | the same in place |
| `SpectrumForms.DiracIsProduct` | src/fftw_convfuns.h:592-620 | the alternating scaling is the product with the spectrum of an impulse delayed by half a buffer |
| `LayoutRoundTrip.ProductThroughLayout` | src/fftw_convfuns.h:21-531 | INPUT, in-place product, OUTPUT gives the ordered half-complex product |
| `LayoutRoundTrip.RoutesAgree` | src/fftw_convolver.c:744-771 | and so agrees with the ordered in-place loop on the same buffers |
| `Representation.ProductRepresents` | src/fftw_convfuns.h:534-560 | multiplying layout buffers convolves the represented sequences circularly |
| `Representation.SumRepresents` | src/fftw_convfuns.h:563-590 | adding layout buffers adds the represented sequences |
| `Representation.InputMixRepresents` | src/fftw_convfuns.h:22-266 | mixing in INPUT mode mixes the represented sequences |
| `Representation.OutputMixRepresents` | src/fftw_convfuns.h:268-485 | mixing in OUTPUT mode leaves the ordered spectrum of the mixed sequences |
| `Representation.DiracRepresents` | src/fftw_convfuns.h:592-620 | the impulse convolution is the convolution with the coefficient set [1] |
| `Morphism.ExpectedRelated` | src/bfrun.c:1641-1663 | whatever a filter must produce from buffers of one kind corresponds to what it must produce from the corresponding buffers of another kind |
| `LayoutRun.OperationsRepresent` | src/fftw_convfuns.h:534-590 | multiplying and adding layout buffers corresponds to the operations on sequences that the filter theorem is about |
| `LayoutRun.InputModeIsMix` | src/fftw_convfuns.h:22-266 | mixing ordered spectra in INPUT mode leaves the buffer that the filter on layout buffers mixes |
| `LayoutRun.RunLayouts` | src/bfrun.c:1498-1681 | a whole run on layout buffers: every output buffer holds the spectrum of a sequence whose scaled first half is the block of the direct-form FIR |
| `LayoutRun.OneMeaning` | src/fftw_convfuns.h:22-266 | a layout buffer stands for one sequence |
| `LayoutRun.TransformedBack` | src/bfrun.c:1498-1681 | the ordered spectrum of an output buffer, transformed back, starts with the block of the direct-form FIR |
| `PipelineSafety.InitHolds` | src/bfrun.c:1361 | the start of the handshake satisfies the invariant |
| `PipelineSafety.InputKeeps` | src/bfrun.c:782-807 | every step of the input thread keeps it |
| `PipelineSafety.OutputKeeps` | src/bfrun.c:826-895 | every step of the output thread keeps it, with or without the two start-up fill writes |
| `PipelineSafety.IdleAtPost` | src/bfrun.c:797-801 | a batch of tokens is posted only when every filter has finished the batch before and waits |
| `PipelineSafety.ClearKeeps` | src/bfrun.c:1346-1349 | clearing the halves at initialisation destroys no data: nothing has been read or written yet |
| `PipelineSafety.AllEntered` | src/bfrun.c:930-943 | a filter that has taken n - 1 anonymous tokens of a round knows that all filters have entered it, even when a fast one has already posted for the next round |
| `PipelineSafety.OneTokenEach` | src/bfrun.c:1370-1375 | a filter finds a token only if it has not yet taken one of the batch |
| `PipelineSafety.StepKeeps` | src/bfrun.c:782-943 | every step of every thread keeps the invariant |
| `PipelineTheorems.RunInvariant` | src/bfrun.c:782-943 | the invariant holds in every state of every run, for any number of filter threads |
| `PipelineTheorems.InputHalfExclusive` | src/bfrun.c:1887-1907 | while the input thread fills a half, every filter at work is on the period before and uses the other half |
| `PipelineTheorems.OutputHalfExclusive` | src/dai.c:1392-1393 | while the output thread drains a half, start-up fills included, every filter at work uses the other half |
| `PipelineTheorems.InputInOrder` | src/dai.c:1140-1141 | a filter at work finds in its input half the input of the period it works on |
| `PipelineTheorems.OutputInOrder` | src/bfrun.c:881-889 | the device gets the periods in order, each made by every filter thread from the input of that same period; start-up fills are silent |
| `PipelineTheorems.StartUp` | src/bfrun.c:830-876 | before any period is written the device has got exactly the two silent halves, the first and then the second, when writing starts synchronised, and none otherwise |
| `PipelineTheorems.OneTokenPerBatch` | src/bfrun.c:1370-1375 | in no run does a filter take two tokens of one batch |
| `PipelineTheorems.OneTokenFromEach` | src/bfrun.c:881-884 | the n tokens that the output thread collects for a period came one from each filter |
| `PipelineTheorems.BarrierSound` | src/bfrun.c:1494-1496 | nobody leaves a barrier round before all have entered it, for any number of threads and rounds |
| `PipelineTheorems.BarriersPerPeriod` | src/bfrun.c:1494-1496 | a filter thread between activations has left one barrier for its initialisation and the configured number for every period since |
| `PipelineTheorems.NoDeadlock` | src/bfrun.c:2455-2460 | every run can be continued: some thread always has an enabled step |
| `PipelineProgress.Progress` | src/bfrun.c:782-895 | every run has a continuation in which the device has got another period |
| `PipelineProgress.BoundedWait` | src/bfrun.c:782-895 | no schedule keeps the device waiting: while no period is written, no run takes more steps than a bound that depends on the number of filter threads alone |
| `Stride.CopyTo` | src/delay.c:76-126 | the samples of one interleaved channel arrive in order; the rest of the delay buffer is kept |
| `Stride.CopyFrom` | src/delay.c:127-176 | the samples go to the channel's places and every other entry of the buffer is kept |
| `Stride.ShiftSamples` | src/delay.c:178-222 | the overlapping shift within the same buffer moves every sample intact and leaves other channels alone |
| `DelayLine.RingStep` | src/delay.c:224-259 | rest buffer, oldest full buffer and the others in ring order are a queue: one block in, the oldest block out |
| `DelayLine.DelayBuffer.UpdateRing` | src/delay.c:224-259 | ring mode: buffer and queue after one block |
| `DelayLine.DelayBuffer.UpdateShort` | src/delay.c:261-276 | short mode: the same queue from two short buffers and the in-place shift |
| `DelayLine.DelayBuffer.ChangeDelay` | src/delay.c:278-313 | every request up to the maximum, the maximum included, gives a queue of just its length, silent if it has grown; one above the maximum, or for the delay there is, leaves the queue as it was |
| `DelayLine.DelayBuffer.Update` | src/delay.c:315-335 | one call: the queue gets the requested length unless the request exceeds the maximum, then one block goes through it, in place or into a target buffer, other samples untouched |
| `DelayLine.SizesEnough` | src/delay.c:337-403 | what is allocated is enough for the initial delay and every delay up to the maximum, if and only if the initial delay fits in what is allocated for the maximum |
| `DelayLine.CallersFit` | src/dai.c:244-252 | of the calls that a configuration leads to, exactly those get buffers of the right size that set a maximum or add less than two samples |
| `DelayLine.CallersDelay` | src/dai.c:244-252 | and exactly those get buffers of the right size and the delay that they ask for that set a maximum or add nothing |
| `DelayLine.DelayLost` | src/delay.c:278-287 | false that a delay with one added sample and no maximum is kept: the buffer starts without delay and refuses it ever after |
| `DelayLine.DelayBuffer.constructor` | src/delay.c:337-403 | for any arguments: a new buffer holds the initial delay's worth of silence and is valid if the initial delay fits, and has more in use than is allocated if it does not |
| `DelayLine.DriveDelays` | src/delay.c:315-335 | over any blocks of any lengths a queue's output is its content followed by the input |
| `DelayLine.DelayedSample` | src/delay.c:315-335 | sample by sample: sample s of the output is sample s - d of the input, for every s >= d |
| `DelayLine.Run` | src/delay.c:315-335 | any interleaved fragments and any request at each: the channel's samples go through the queue, all other samples stay, and the invariant survives |
| `DelayLine.DelayHolds` | src/delay.c:278-335 | from any request on, as long as each later one exceeds the maximum or asks for the same delay d: sample s of the channel comes out as input sample s - d for every s >= d, the first d silent if the delay has grown; d is what the request asks for, unless that exceeds the maximum |
| `DelayLine.RunFresh` | src/delay.c:315-403 | a new buffer with a constant delay: as many zeros as its starting delay, which is the initial delay unless a maximum of zero overrides it, then the input |
| `FilterGraph.FilterLoopCorrect` | src/bfconf.c:2101-2117 | on any graph, an answer of the recursive search tells whether the source can be reached |
| `FilterGraph.FilterLoopEnds` | src/bfconf.c:2101-2117 | where no cycle can be reached the search ends, at a depth of at most the number of filters |
| `FilterGraph.DeeperScan` | src/bfconf.c:2101-2117 | an answer of the search does not depend on how deep the recursion may go |
| `FilterGraph.EndsWithNo` | src/bfconf.c:2101-2117 | the search ends with no exactly if the source and all cycles are out of reach |
| `FilterGraph.EndsWithYes` | src/bfconf.c:2101-2117 | the search ends with yes exactly if taking the first open output at every filter leads to the source |
| `FilterGraph.LoopCheckDiverges` | src/bfconf.c:2820-2826 | false that the check refuses every loop: on a well-formed graph whose loop lies behind filter 0 the first search never ends |
| `FilterGraph.RefusedIff` | src/bfconf.c:2820-2826 | the check refuses a graph at filter n exactly if n is the first filter with a cycle ahead and is led back to itself |
| `FilterGraph.CheckEndsIff` | src/bfconf.c:2820-2826 | the check ends exactly on the acyclic graphs and on those that it refuses |
| `FilterGraph.LoopCheckExact` | src/bfconf.c:2820-2826 | the check accepts exactly the acyclic graphs |
| `FilterGraph.SomeReady` | src/bfconf.c:2969-2988 | among the filters not yet placed, one has all its inputs placed |
| `FilterGraph.SortPass` | src/bfconf.c:2970-2988 | one pass places every filter that was ready and keeps the order valid |
| `FilterGraph.SortFilters` | src/bfconf.c:2965-2991 | the sort ends with a permutation of the process's filters in which each comes after all its inputs |
| `LoadBalance.FollowLinks` | src/bfconf.c:2323-2331 | following the links of one filter moves just the filters tied to it |
| `LoadBalance.GrowByLinks` | src/bfconf.c:2318-2333 | the round over links; without a change every link stays inside the process |
| `LoadBalance.GrowByOutputs` | src/bfconf.c:2335-2361 | the round over shared output channels; without a change no channel is shared with another process |
| `LoadBalance.FillProcess` | src/bfconf.c:2313-2363 | the repeat loop ends, and then the process contains everything tied to it |
| `LoadBalance.AssignProcesses` | src/bfconf.c:2304-2366 | every filter gets a process; processes are closed and each is connected to the filter it was started for |
| `LoadBalance.ProcessesAreComponents` | src/bfconf.c:2304-2366 | two filters share a process if and only if they are connected |
| `LoadBalance.FoldProcesses` | src/bfconf.c:2373-2383 | renumbering in place deals the processes out in turn: process modulo processors, never mixing two |
| `LoadBalance.LoadBalanceFilters` | src/bfconf.c:2294-2386 | connected filters share a process, and every process index up to the returned one is used; with processors to spare, only connected filters do; otherwise no process gets more than one connected group more than another |
| `LoadBalance.CheckAcceptsBalanced` | src/bfconf.c:2927-2963 | the later checks refuse nothing if and only if connected filters share a process |
| `LoadBalance.BalancedAccepted` | src/bfconf.c:2927-2963 | a balanced configuration is never refused |
| `LoadBalance.InputsInProcess` | src/bfconf.c:2938-2952 | in an accepted configuration the inputs of a filter are in its own process, as the sort needs |
| `CallbackIo.Client.constructor` | src/dai.c:868-878 | the fill count 2P/b - 2, the byte counters and the empty halves satisfy the invariant whenever a half is filled in time |
| `CallbackIo.FilledIff` | src/dai.c:1557-1571 | the callbacks of a period move the bytes of a half exactly if all open channels are in use |
| `CallbackIo.FirstWaitIff` | src/dai.c:1685-1787 | the first wait for the filters finds a period triggered exactly if a whole number of callbacks, at most 2P/b - 1, moves the bytes of a half |
| `CallbackIo.UnusedChannelBlocks` | src/dai.c:535-535 | false that each wait follows a trigger: one of two interleaved channels in use and a callback for every period, and nothing has been triggered at the first wait |
| `CallbackIo.Client.InputPart` | src/dai.c:1551-1577 | a block is taken into a half that the filters are not using; when no bytes are left to fill it triggers them |
| `CallbackIo.Client.AwaitFilters` | src/bfrun.c:2098-2101 | each wait for the filters follows the matching trigger |
| `CallbackIo.Client.OutputPart` | src/dai.c:1579-1620 | a block is silence while the delay fills up, then the input block 2P/b - 2 callbacks older, from a half that the filters are not using |
| `CallbackIo.Client.Callback` | src/dai.c:1685-1787 | one callback, input part then output part |
| `CallbackIo.Play` | src/dai.c:1685-1787 | over any stream and any timing of the filters, wherever the first wait finds a trigger every block leaves exactly 2P/b - 2 callbacks after it entered |
| `Quantiser.CutSample` | src/dither_funs.h:38-62 | the rounding branches: the cut value, the overflow count and exactly when either peak value changes, and to what |
| `Quantiser.CutBounds` | src/dither_funs.h:38-62 | results stay in range; unclipped values lose less than one step, negative ones more than nothing and up to a whole step, which leaves one possible result |
| `Quantiser.RoundedNear` | src/dither_funs.h:70-114 | without dither the result is within half a step if and only if the input is within half a step of the range, and saturated otherwise |
| `Quantiser.OverflowCounted` | src/dither_funs.h:83-112 | an overflow is counted for inputs beyond the range and for those at its edges, and the latter are exactly the ones counted although they are rounded within half a step |
| `Quantiser.OverflowOvercounted` | src/dither_funs.h:83-112 | false that only saturated samples are counted: 126.75 and 127 at eight bits |
| `Quantiser.RoundedInteger` | src/dither_funs.h:83-112 | integers in range are kept, and exactly the one at the upper end is counted as an overflow |
| `Quantiser.Real2IntNoDither` | src/dither_funs.h:70-114 | one undithered sample: its overflow count, and peaks that are the largest magnitudes so far |
| `Quantiser.Feedback.Real2IntHpTpdf` | src/dither_funs.h:8-67 | one dithered sample: output, both stored errors and overflow count; the recorded overflow becomes smaller exactly when a clipped sample exceeds it without dither, but not with it |
| `Quantiser.PeakShrinks` | src/dither_funs.h:50-54 | false that the recorded overflow never becomes smaller: at eight bits a sample of 200 with the least dither makes 199.75 smaller |
| `Quantiser.ErrorBound` | src/dither_funs.h:20-67 | an unclipped step leaves an error of at most 1.5, whatever the errors before it |
| `Quantiser.QuantiseRun` | src/dither_funs.h:20-67 | over every run each output is the cut of the input with fed-back errors and dither, each error what this has changed, and the count grows by the number of values that clip |
| `Quantiser.NoiseShaped` | src/dither_funs.h:20-67 | y[n] = x[n] - e[n] + e[n-1] - e[n-2]; errors of unclipped samples stay within 1.5, and the output is within 4.5 of the input where three samples in a row are not clipped, so throughout a run that counts no overflow |
| `DitherTable.State.Preloop` | src/dither.h:27-37 | where a block is taken from, and the wrap that keeps the value the next difference is taken from and touches no entry but the first |
| `DitherTable.State.Block` | src/dither.h:27-37 | one block: the differences of the table's entries from the block's base on, the first from the value the block before has ended with |
| `DitherTable.DifferencesBounded` | src/dither_funs.h:20-67 | differences of bytes telescope: every partial sum stays within 255 |
| `DitherTable.TableReaches` | src/dither.c:72-90 | exactly when the table is longer than a block |
| `DitherTable.TableTooShort` | src/dither.c:72-90 | false that it always is: 80001 entries for blocks of 131072 |
| `DitherTable.TableRefused` | src/dither.c:72-90 | a table is refused exactly if the limit leaves each channel less than a second and less than a block |
| `DitherTable.PointerRuns` | src/dither.h:27-37 | a channel's place in the table moves on by a block at a time exactly as long as an entry is left behind it, and starts again at entry 1 otherwise |
| `DitherTable.RunSchedule` | src/dither.h:27-37 | for any interleaving of channels and any number of wraps, a channel's dither is the differences of the entries it visits, which depend on the table, its start and its number of blocks alone; every partial sum stays within 255 |
| `Pcm.EncodeDecode` | src/real2raw.h:165-244 | encoding what was decoded gives the same bytes, for any width and both byte orders |
| `Pcm.DecodeEncode` | src/raw2real.h:88-153 | decoding what was encoded gives the number, if it fits the width |
| `Pcm.PowersOfTwo` | src/real2raw.h:165-166 | the powers that bound the sample range: doubled by every bit, a byte having eight |
| `Pcm.DecodedBytes` | src/raw2real.h:88-153 | which number one to four bytes stand for in either order |
| `Pcm.Swap16Reverses` | src/swap.h:12-25 | the 16-bit swap exchanges the bytes |
| `Pcm.Swap32Reverses` | src/swap.h:27-40 | the 32-bit swap, built from two 16-bit swaps, reverses the four bytes |
| `Pcm.SwapTwice32` | src/swap.h:27-40 | swapping twice changes nothing |
| `Pcm.SwapTwice64` | src/swap.h:42-55 | the same for 64 bits |
| `Pcm.Read3` | src/raw2real.h:106-142 | packed 24-bit samples, loaded into the upper bytes of a word and shifted down, decode as three-byte numbers in both orders |
| `Pcm.ReadSample` | src/raw2real.h:88-153 | all four widths decode as two's complement numbers in the given byte order |
| `Pcm.SampleBytes` | src/real2raw.h:169-244 | all four widths store the encoding of the sample in the given byte order |
| `PcmStream.Raw2Real` | src/raw2real.h:88-153 | every sample of a strided channel is decoded |
| `PcmStream.OverflowsAre` | src/dither_funs.h:83-112 | the overflow counter grows by the saturated samples, further than half a step from the range, and by those at the edges; it is the number of saturated samples if and only if there are none at the edges |
| `PcmStream.Real2Raw` | src/real2raw.h:165-244 | every slot reads back as a number within half a step of its sample if there is one among the 2^bits around zero, and otherwise as the least or the greatest of these; every other byte is kept, and the overflow count grows by the number of saturated samples and of samples at the edges of the range |
| `PcmStream.ReadBack` | src/real2raw.h:165-244 | the same for one stored sample |
| `PcmStream.IntegersAtTop` | src/dither_funs.h:83-112 | no integer in range is saturated, and those at the edges are the ones at the upper end |
| `PcmStream.RoundTrip` | src/real2raw.h:165-244 | reading a channel of in-range samples gives what its slots hold, and writing it back restores the buffer byte for byte, at any stride |
| `BufferFormat.CellDistinct` | src/dai.c:525-532 | no two (channel, sample) pairs of a device share a place, interleaved or not |
| `BufferFormat.SampleInDevice` | src/dai.c:525-539 | every sample lies in its device's part of the buffer |
| `BufferFormat.SlotsDisjoint` | src/dai.c:511-544 | byte ranges of distinct (channel, sample) pairs never overlap, across any mix of devices |
| `BufferFormat.SlotsInside` | src/dai.c:511-544 | all of them lie within n_bytes; a sample's place is its device's start and, behind that, its frame and channel with interleaving, its channel and frame without |
| `BufferFormat.StartsPacked` | src/dai.c:537-543 | the first device starts at 0, and each next one at the first multiple of 32 behind all bytes of the one before |
| `BufferFormat.CalcBufferFormat` | src/dai.c:511-544 | the computed formats, offsets and n_bytes are those of the layout |
| `BufferFormat.CallbackFitsIff` | src/dai.c:1551-1620 | callbacks copy all samples to the places of the layout exactly if, with interleaving, all open channels are in use, and without, all bytes of a sample are significant or there is one channel |
| `BufferFormat.PeriodFillsIff` | src/dai.c:1557-1571 | the callbacks of a period fill the device's part of the buffer exactly if all its open channels are in use |
| `BufferFormat.CallbackOverlaps` | src/dai.c:1606-1614 | three significant bytes of four and two channels: the second channel is copied over the end of the first |
| `BufferFormat.UnusedChannelMisplaced` | src/dai.c:1557-1560 | one of two interleaved channels in use: the part stays half empty, and samples are not at their places |

## Left out

- The FFT itself, plan creation and wisdom: a transform and its inverse are represented by their defining sums.
- Floating-point rounding, NaN and safety-limit aborts: samples are reals.
- Crossfade on coefficient changes (src/bfrun.c:1618-1629): the single and double precision paths do not compute the same thing, so there is no one intended result.
- PartitionedFilter.FilterState.ProcessBlock: with powersave the output is specified for a fixed pre-delay and one partition count, the case the source intends; coefficient sets of different block counts and analog thresholds are not.
- FilterRun.RunFilter: the pre-delay and the scales are fixed during a run; reuse of `ocbuf[0]` as output scratch is not modelled, each filter's output buffer is its own.
- FilterRun.InputChannel.NextBlock: the block is given as decoded samples; the decoding from raw bytes is modelled in PcmStream, and input delay in DelayLine.
- PartitionedFir.LoadCoeff: the scale factor of a coefficient set counts as already applied to its taps; file formats and shared memory are left out.
- Network.RunNetwork: the filters of one process in their processing order, with fixed scales; that such an order exists and is kept is proved in FilterGraph, that no filter reads one of another process in LoadBalance. Mixing filter outputs into output channels is left out.
- LayoutRun.RunLayouts: the spectra of the channels and of the coefficients are given; the transforms that make them are foreign.
- Coefficient events, equaliser double buffering (`coeff_final`) and logic modules.
- PipelineSafety.StepKeeps: thread mode with blocking input and output; process forking, pipes, end of file and the optional extra semaphores for callback devices are left out. Waiting for several tokens takes them one by one, which allows more interleavings than the mutex does. Device reads and writes are steps that always complete.
- SpectrumLayout.Convolve: the buffer of reals is seen as a buffer of groups of four, so the order of the four scalar assignments within a group is not visible; each depends on its own lane only.
- SpectrumLayout.MixScaleInput: the unrolled forms for one to four buffers are modelled per sample, in the order of the two passes.
- DelayLine.DelayBuffer.Update: a sample is one array element, whatever its width in bytes; the special case of one channel, a plain block copy, has the same effect.
- FilterGraph.FilterLoop: recursion depth is a parameter, because the search need not end on a cyclic graph.
- Bit sets are mathematical sets.
- CallbackIo.Play: one client with the same format for input and output; a half holds the blocks of its callbacks in the order of their arrival, and BufferFormat says when that is where the layout has them. The tokens of the filter threads of a period count as one, and the filters copy their input. Mute and several devices are left out.
- DitherTable.RunSchedule: the table is longer than one block (DitherTable.TableReaches says when), and a channel's block is one step: the filter threads share the table's first entry without a lock, so this assumes that no other thread wraps between a wrap and the draws that follow it. The generator of the random numbers is not modelled.
- Quantiser.NoiseShaped: no bound where samples are clipped; a clipped sample leaves an error without bound.
- Pcm.ReadSample: little-endian hosts; floating-point sample formats are left out.
- Byte swaps are written with quotients and remainders instead of masks and shifts.
- Configuration syntax, command line, sockets, sound modules, realtime priorities, timers and debug output.
- Kaiser window and sinc design of the subsample filters: the bank of filters is given.
