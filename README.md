# A verified model of the JUCE three-band equalizer plugin

This project models the control and data logic of a JUCE audio plugin: a
three-band equalizer with a low-cut bank, a peak filter and a high-cut bank.
The signal arithmetic itself is not modelled. The model is in four Dafny
modules, one per source file of the plugin's core.

- `relay.dfy` (module `Relay`) models `Source/PluginUtilities.h`.
  - `Fifo<T>` is a ring of 30 slots. Its two `AbstractFifo` cursors are
    modelled exactly: at most `Capacity - 1 = 29` items are ever queued,
    because the ring keeps one slot free.
  - `SingleChannelSampleFifo` takes one channel of every audio buffer, sample
    by sample, into `bufferToFill`. When a full block is waiting and the next
    sample arrives, it pushes the block into the ring.
  - Ghost histories record the samples taken and the blocks offered. They
    state the accounting between the two: after `n >= 1` samples,
    `(n - 1) div size` blocks have been handed on.
- `filters.dfy` (module `Filters`) models `Source/PluginUtilities.cpp` and the
  types of the header.
  - `getChainSettings` reads the settings snapshot.
  - The coefficient producers return symbolic coefficients. Each value names
    the design request it came from.
  - `updateCutFilter` is modelled with its `switch` fallthrough.
  - `updateCoefficients` writes through a heap object.
  - `MonoChain` is a class.
- `processor.dfy` (module `Processor`) models `Source/PluginProcessor.cpp`:
  - the parameter layout and its slope labels;
  - the bus-layout validator;
  - the four filter-update methods on the two channel chains;
  - `prepareToPlay`;
  - `processBlock`: clear the surplus outputs, update the filters, run each
    chain twice, then feed both relays.
- `editor.dfy` (module `Editor`) models `Source/PluginEditor.cpp`:
  - the one-flag debounce between `parameterValueChanged` and the 60 Hz
    `timerCallback`, stated over histories of events;
  - the column loop of `paint`, which decides which filters contribute a
    magnitude factor;
  - the response path.

Some facts of the code that the model keeps as written:

- **Cut order.** The Butterworth order handed to the designer is
  `(cutoff + 1) * 2`, converted to `int`. It comes from the cutoff frequency,
  not from the slope (`Filters.CutOrder`). For any cutoff of 20 Hz or more,
  the order is at least 42. So the design always has a section for each of
  the four slots, and no slot the slope switches on is given a null pointer
  (`Filters.CutDesignCoversEverySlot`). Slots above the slope keep their old
  coefficients and stay bypassed (`Filters.ActiveSlotsFollowSlope`).
- **Each chain runs twice.** `processBlock` runs each channel's chain twice
  over its channel (`Processor.AudioProcessor.RunChains`).
- **Left and right channels.** The `Channel` enum puts `Right` at 0 and `Left`
  at 1. The declarations of the two relays are not part of this model. The
  model assumes `leftChannelFifo` is built with `Channel::Left` and
  `rightChannelFifo` with `Channel::Right`. Under that assumption, the left
  relay reads channel 1 while `leftChain` processes channel 0.
- **Filter state.** Each chain's filters keep internal state from one pass to
  the next. The model threads that state (`FilterMemory`) through every pass
  without inspecting it. `processBlock`'s second pass of a chain starts from
  the state its first pass left, and `prepareToPlay` resets it.
- **The editor's chain.** The editor's own `monoChain` only ever receives peak
  coefficients. Its cut banks and bypass flags stay those of a
  default-constructed chain. So the drawn curve ignores the cut settings and
  all bypass switches (`Editor.EditorCurveIgnoresCutSettings`).
- **Slope values.** `Slope` is filled by a `static_cast` from the raw float
  parameter. C++ leaves an out-of-range cast to this enum undefined, so the
  model widens `Slope` to `int` to be safe. From a store holding legal
  values, only 0..3 ever arrive (`Processor.SettingsFromLegalStore`). For
  any other value the model's `updateCutFilter` matches no `case` and leaves
  all four slots bypassed.
- **Missing cut coefficients.** `cutCoefficients[i]` on a
  `ReferenceCountedArray` yields a null pointer when `i` is out of range. The
  model writes that as the coefficient value `Null`.

## Model

| member | source | states |
|---|---|---|
| Relay.OfferAllAcceptsUntilFull | Source/PluginUtilities.h:100-110 | A run of pushes keeps every queued item, appends the new items in order while fewer than 29 are queued, and drops every push after that. |
| Relay.OfferAllConcat | Source/PluginUtilities.h:100-110 | Pushing one run and then another is the same as pushing their concatenation. |
| Relay.PushedItemsQueueInOrder | Source/PluginUtilities.h:100-122 | Up to 29 items pushed into an empty ring are all queued, in push order. |
| Relay.OverflowRefusesExactlyTheLastPush | Source/PluginUtilities.h:100-110 | Of 30 pushes into an empty ring, the first 29 are accepted in order and the 30th leaves the queue unchanged. |
| Relay.Fifo.constructor | Source/PluginUtilities.h:129-132 | A new ring is empty, has no pushes or pulls counted, and every slot holds the default value. |
| Relay.Fifo.Prepare | Source/PluginUtilities.h:74-98 | Every slot becomes the blank value. The cursors are untouched, so queued items read back as blanks. |
| Relay.PrepareVectors | Source/PluginUtilities.h:89-98 | For a ring of sample vectors, every slot becomes a vector of exactly `numElements` zeros. |
| Relay.Fifo.Push | Source/PluginUtilities.h:100-110 | Returns true exactly when fewer than 29 items are queued. On true, `t` is appended to the queue. On false, the queue is unchanged. The push count rises only on success. |
| Relay.Fifo.Pull | Source/PluginUtilities.h:112-122 | Returns false and hands back `t` unchanged when nothing is queued. Otherwise it returns the oldest item and removes it. The pull count rises only on success. |
| Relay.Fifo.GetNumAvailableForReading | Source/PluginUtilities.h:124-127 | The number of queued items, which equals successful pushes minus successful pulls and is at most 29. |
| Relay.SingleChannelSampleFifo.constructor | Source/PluginUtilities.h:138-141 | A new relay takes the given channel, is not prepared, and has an empty ring. |
| Relay.SingleChannelSampleFifo.Prepare | Source/PluginUtilities.h:155-168 | `size` is the block size and `bufferToFill` holds that many samples. If it already had that one-channel shape, it is the same buffer with the same samples. Otherwise it is new cleared storage. Every ring slot becomes a silent one-channel block, and writing restarts at index 0. The relay ends prepared. |
| Relay.ReprepareKeepsPendingSamples | Source/PluginUtilities.h:155-168 | A sample taken after one `prepare(2)` is still in `bufferToFill` after a second `prepare(2)`. |
| Relay.SingleChannelSampleFifo.FlushFullBuffer | Source/PluginUtilities.h:186-193 | A full `bufferToFill` is offered to the ring as one push, with any refusal ignored, and the write index returns to 0. |
| Relay.SingleChannelSampleFifo.PushNextSampleIntoFifo | Source/PluginUtilities.h:184-197 | Keeps `1 <= fifoIndex <= size`. A full buffer is pushed only when the next sample arrives, after which the sample lands at index 0. Otherwise the index advances by one and nothing is pushed. Every sample is accounted for. |
| Relay.SingleChannelSampleFifo.Update | Source/PluginUtilities.h:143-153 | Requires a prepared relay and the relay's channel to exist. It feeds that channel's samples in index order, and the ring's queue is the old queue plus the blocks offered meanwhile. |
| Relay.HandedOnBlockCount | Source/PluginUtilities.h:184-197 | With 1 to `size` samples pending, the number of blocks handed on is (samples taken - 1) div `size`. |
| Relay.SingleChannelSampleFifo.BlocksHandedOn | Source/PluginUtilities.h:143-197 | After n >= 1 samples since `prepare`, exactly (n - 1) div `size` blocks of `size` consecutive samples have been offered to the ring. |
| Relay.SingleChannelSampleFifo.GetNumCompleteBuffersAvailable | Source/PluginUtilities.h:170 | The number of blocks queued in the ring. |
| Relay.SingleChannelSampleFifo.GetAudioBuffer | Source/PluginUtilities.h:174 | Pulls the oldest queued block, with the ring's pull semantics. |
| Filters.Trunc | Source/PluginUtilities.cpp:22-23 | The float-to-integer conversion truncates toward zero. |
| Filters.GetChainSettings | Source/PluginUtilities.cpp:13-30 | Each bypass flag is true exactly when its raw value exceeds 0.5. Each slope is the raw choice value truncated. Frequencies, gain and quality are copied. |
| Filters.MakePeakFilter | Source/PluginUtilities.cpp:40-46 | A peaking design at the host sample rate, from the peak frequency, quality and gain. |
| Filters.PeakDesignReadsOnlyPeakSettings | Source/PluginUtilities.cpp:40-46 | Two settings that agree on peak frequency, gain and quality give the same peak design. The cut and bypass settings play no part. |
| Filters.CutOrder | Source/PluginUtilities.cpp:48-62 | The designer's order is (cutoff + 1) * 2 truncated: the whole number just at or below it, for any cutoff of -1 or more. |
| Filters.SectionCount | Source/PluginUtilities.cpp:48-62 | An order of n > 0 gives n div 2 second-order sections plus one first-order section for odd n, so 2 * count is n or n + 1. An order <= 0 gives no sections. |
| Filters.MakeLowCutFilter | Source/PluginUtilities.cpp:48-54 | Returns `SectionCount(CutOrder(lowCutFreq))` entries, and entry i is high-pass section i of the Butterworth design at the low-cut frequency and the given sample rate. The order comes from the cutoff frequency. |
| Filters.MakeHighCutFilter | Source/PluginUtilities.cpp:56-62 | Returns `SectionCount(CutOrder(highCutFreq))` entries, and entry i is low-pass section i of the Butterworth design at the high-cut frequency and the given sample rate. The order comes from the cutoff frequency. |
| Filters.SectionsCoverSlots | Source/PluginUtilities.cpp:48-62 | A design has a section for each of the four slots exactly when its order is at least 7. |
| Filters.CutDesignCoversEverySlot | Source/PluginUtilities.cpp:48-62 | Any cutoff of 20 Hz or more gives order >= 42, hence at least four sections. |
| Filters.UpdateCutFilter | Source/PluginUtilities.cpp:65-98 | Slot i ends active exactly when the slope is one of the four named values and i <= slope. Each active slot holds `cutCoefficients[i]`. Each other slot is bypassed and keeps its old coefficients. |
| Filters.ActiveSlotsFollowSlope | Source/PluginUtilities.cpp:65-98 | `Slope_12` leaves one slot active and `Slope_48` leaves four. Named slope k activates k + 1 slots, and any other value activates none. |
| Filters.CutUpdateIdempotent | Source/PluginUtilities.cpp:65-98 | Running `updateCutFilter` twice with the same arguments gives the same bank as running it once. |
| Filters.UpdateCoefficients | Source/PluginUtilities.cpp:34-37 | The object the pointer refers to takes the replacement's value. The pointer is not reseated, and a distinct replacement object is unchanged. |
| Filters.MonoChain.constructor | Source/PluginUtilities.h:15-20 | A new chain has pass-through filters everywhere and nothing bypassed. |
| Filters.MonoChain.Prepare | Source/PluginProcessor.cpp:106-107 | Every filter of the chain is reset: its internal state is cleared, and its configuration is kept. |
| Filters.MonoChain.SetBypassed | Source/PluginProcessor.cpp:305-306 | Only the flag of the given chain position changes. |
| Processor.DecimalDigitsRoundTrip | Source/PluginProcessor.cpp:283-284 | Writing a number's decimal digits and reading them back gives the number. |
| Processor.SlopeLabelSpelledOut | Source/PluginProcessor.cpp:280-287 | The label built for choice i (12 + 12·i followed by " db/Oct") is "12 db/Oct", "24 db/Oct", "36 db/Oct" or "48 db/Oct". |
| Processor.CreateParameterLayout | Source/PluginProcessor.cpp:243-299 | The loop builds the four slope labels. The layout lists the eleven parameters with their ranges and defaults, and both slopes default to index 0. |
| Processor.LayoutDeclaresEachParameterOnce | Source/PluginProcessor.cpp:250-296 | Parameter IDs are distinct. They are exactly the IDs `getChainSettings` reads plus the analyzer switch. |
| Processor.DefaultsAreLegal | Source/PluginProcessor.cpp:250-296 | Every default lies in its parameter's range or choice list. |
| Processor.DefaultStoreValues | Source/PluginProcessor.cpp:250-296 | Gives the raw value a fresh parameter store holds for each ID. |
| Processor.DefaultSettings | Source/PluginProcessor.cpp:250-296 | A fresh store is legal. Its settings are: peak 750 Hz at 0 dB and quality 1; cuts at 20 Hz and 20 kHz, both at `Slope_12`; nothing bypassed. |
| Processor.SettingsFromLegalStore | Source/PluginUtilities.cpp:13-30 | From any store whose values are legal, both slopes are named slopes and every frequency, gain and quality lies in its declared range. Each bypass flag is set exactly when its switch holds 1. |
| Processor.IsBusesLayoutSupported | Source/PluginProcessor.cpp:127-149 | A MIDI effect accepts every layout. Otherwise a layout is accepted exactly when the output is mono or stereo and, unless the plugin is a synth, the input equals the output. |
| Processor.EffectLayoutSupportedIff | Source/PluginProcessor.cpp:137-147 | For an effect, a layout is supported exactly when the output is mono or stereo and the input equals the output. |
| Processor.SupportedEffectLayoutClearsNothing | Source/PluginProcessor.cpp:165-166 | A supported effect layout has equal input and output counts, one or two of them, so the clearing loop clears nothing. |
| Processor.MonoLayoutAcceptedWithOneChannel | Source/PluginProcessor.cpp:137-147 | The validator accepts mono-in/mono-out, which has a single channel. |
| Processor.StereoCheckGivesTwoChannels | Source/PluginProcessor.cpp:184-197 | Every layout the stereo-only validator accepts has two input and two output channels, and is also accepted by the original validator. |
| Processor.FiltersFollowSettings | Source/PluginProcessor.cpp:301-349 | After `updateFilters`, each position's bypass flag is its setting. The peak holds the peak design, and each cut bank is its own bank updated from its design and slope. |
| Processor.FiltersUpdateIdempotent | Source/PluginProcessor.cpp:340-349 | A second `updateFilters` with the same settings changes nothing. |
| Processor.LegalStoreActivatesDesignedSlots | Source/PluginProcessor.cpp:312-338 | From a legal store, each cut bank has slope + 1 active slots. Slot i is active exactly when i <= slope, and every active slot holds section i of its own design. |
| Processor.ClearingEmptyRange | Source/PluginProcessor.cpp:165-166 | With no more outputs than inputs, clearing changes nothing. |
| Processor.ClearSurplusOutputs | Source/PluginProcessor.cpp:165-166 | Exactly the channels with index in [numInputs, numOutputs) become silent. All others, and every channel's length, are kept. |
| Processor.TwoPasses | Source/PluginProcessor.cpp:190-194 | Two passes of one chain over one channel, the second starting from the filter state the first left. A process that keeps the sample count keeps it over both passes. |
| Processor.ProcessChannel | Source/PluginProcessor.cpp:190-194 | One chain.process over one channel: that channel and the chain's filter state become the pass's result. The chain's configuration and every other channel are kept. |
| Processor.AudioProcessor.constructor | Source/PluginProcessor.cpp:13-25 | The parameter store starts at the layout's defaults. Both chains are new default chains with reset filter state. Both relays are new, unprepared, and have empty rings. All of these objects are fresh. |
| Processor.AudioProcessor.UpdatePeakFilter | Source/PluginProcessor.cpp:301-310 | Both chains take the peak bypass flag and, through `updateCoefficients`, the peak design. They stay equal, and nothing else changes, the filter state included. |
| Processor.AudioProcessor.UpdateLowCutFilters | Source/PluginProcessor.cpp:312-324 | Both chains take the low-cut bypass flag and the same updated low-cut bank. They stay equal. |
| Processor.AudioProcessor.UpdateHighCutFilters | Source/PluginProcessor.cpp:326-338 | Both chains take the high-cut bypass flag and the same updated high-cut bank. They stay equal. |
| Processor.AudioProcessor.UpdateFilters | Source/PluginProcessor.cpp:340-349 | Reads the settings once, then updates peak, low cut and high cut. The chains stay equal and end up as the updated chain. |
| Processor.AudioProcessor.PrepareRelays | Source/PluginProcessor.cpp:111-112 | Both relays are prepared for blocks of `samplesPerBlock` samples. Each `bufferToFill` holds `samplesPerBlock` samples and is resized as `SingleChannelSampleFifo.Prepare` states. Each relay writes at index 0 and has taken and offered nothing yet. Every queued block reads back silent. |
| Processor.AudioProcessor.PrepareToPlay | Source/PluginProcessor.cpp:94-118 | The sample rate becomes the host's rate. Both chains are reset and configured from the current settings at that rate. Both relays are prepared as `PrepareRelays` states. |
| Processor.AudioProcessor.RunChains | Source/PluginProcessor.cpp:184-194 | Channel 0 goes through two passes of the left chain and channel 1 through two of the right. Each pass starts from the filter state the previous one left, and each chain ends with its second pass's state. Other channels, all sample counts and the configuration are kept. |
| Processor.AudioProcessor.FilterBlock | Source/PluginProcessor.cpp:165-194 | The surplus outputs are cleared and the filters updated. Then each chain makes two stateful passes over its cleared channel, keeping every sample count. |
| Processor.AudioProcessor.FeedRelays | Source/PluginProcessor.cpp:196-197 | The left relay is fed channel 1 (`Left`) and the right relay channel 0 (`Right`). Each relay keeps its size and `bufferToFill`, and its ring receives exactly the blocks it offered, in order. |
| Processor.AudioProcessor.ProcessBlock | Source/PluginProcessor.cpp:152-198 | In order: clear the surplus outputs, update the filters, run each chain twice with its filter state carried between passes, then feed each relay its channel of the processed buffer. Sample counts, relay sizes and buffers are kept, and each ring receives exactly the blocks offered. |
| Processor.PlayOneBlock | Source/PluginProcessor.cpp:94-198 | A new processor, prepared at the host's rate for blocks of two, then given one four-sample stereo block: each relay has taken its channel's four processed samples, and its ring holds exactly one block, the first two of them. |
| Processor.HandedOnOneBlock | Source/PluginUtilities.h:184-197 | A relay prepared for blocks of two that has taken four samples into a ring that was empty has queued exactly the first two. |
| Editor.FlagMeansPendingChange | Source/PluginEditor.cpp:156-176 | The flag is set exactly when the latest event was a parameter change. |
| Editor.RepaintsAtMostTicks | Source/PluginEditor.cpp:163-176 | Every repaint happens on a timer tick. |
| Editor.RepaintsAndPendingAtMostChanges | Source/PluginEditor.cpp:156-176 | Repaints plus a pending flag never exceed the number of parameter changes. |
| Editor.RepaintsAtMostChanges | Source/PluginEditor.cpp:156-176 | There are never more repaints than parameter changes. |
| Editor.ChangesDoNotRepaint | Source/PluginEditor.cpp:156-159 | A run of parameter changes causes no repaint. It leaves the flag set if the run is not empty. |
| Editor.ChangesBetweenTicksRepaintOnce | Source/PluginEditor.cpp:156-176 | Any number of changes between two ticks cause exactly one repaint at the second tick, or none if there was no change. The flag then ends clear. |
| Editor.PaintStages | Source/PluginEditor.cpp:72-91 | `paint` looks at nine filters: the peak and the four slots of each cut bank. |
| Editor.PaintStagesAt | Source/PluginEditor.cpp:72-91 | The peak comes first and is judged by the chain's Peak flag. Low-cut slot k is at 1 + k and high-cut slot k at 5 + k, each judged by its own slot flag. |
| Editor.OneFactorPerActiveStage | Source/PluginEditor.cpp:69-91 | A column gets exactly one factor per filter that is not bypassed, and that factor is the filter's magnitude. |
| Editor.AllBypassedIsUnity | Source/PluginEditor.cpp:69-91 | With every filter bypassed, a column has no factors and its magnitude stays 1. |
| Editor.RunningIsProduct | Source/PluginEditor.cpp:69-91 | The running magnitude after k filters is the product of their factors. |
| Editor.MultiplyStages | Source/PluginEditor.cpp:69-91 | A column's magnitude starts at 1 and is the product of the magnitudes of the filters that are not bypassed. |
| Editor.Magnitudes | Source/PluginEditor.cpp:64-94 | `mags` has one entry per column. Entry i is, in decibels, that column's magnitude at frequency `mapToLog10(i / w)`. |
| Editor.ResponseArea | Source/PluginEditor.cpp:53-55 | The response area is the top quarter of the bounds, rounded down to whole pixels, at the same x and width. |
| Editor.MapSpansChart | Source/PluginEditor.cpp:97-103 | -24 dB maps to the bottom edge and +24 dB to the top edge. A louder column is drawn strictly higher. |
| Editor.ResponseCurve | Source/PluginEditor.cpp:106-111 | Requires at least one column. The path has one vertex per column, at x = area x + i with the mapped magnitude, and x strictly increases. |
| Editor.AudioProcessorEditor.constructor | Source/PluginEditor.cpp:13-36 | The editor starts with a default chain, the flag clear and no repaint. |
| Editor.AudioProcessorEditor.ParameterValueChanged | Source/PluginEditor.cpp:156-159 | Sets the flag whatever the index and value, and requests no repaint. |
| Editor.AudioProcessorEditor.TimerCallback | Source/PluginEditor.cpp:163-176 | With the flag clear, nothing changes. With it set, the flag is cleared, the peak coefficients are replaced by the design read from the settings, and exactly one repaint is requested. Nothing else in the chain changes. |
| Editor.AudioProcessorEditor.Paint | Source/PluginEditor.cpp:46-111 | Yields one decibel magnitude per column of the response area, and the path through them at one pixel per column. |
| Editor.EditorCurveIgnoresCutSettings | Source/PluginEditor.cpp:57-91 | For the editor's chain, every column is the peak's magnitude times the pass-through magnitude of all eight cut slots. |
| Editor.FactorsOfUnbypassed | Source/PluginEditor.cpp:69-91 | With nothing bypassed, there is one factor per filter, in order. |

## Left out

- **Filter design and evaluation.** Coefficient design, the Butterworth
  designer, `getMagnitudeForFrequency`, `Decibels` and `mapToLog10` are
  floating-point library code. Coefficients are symbolic values, and the
  three numeric functions are parameters of `Editor.AudioProcessorEditor.Paint`.
- **Per-sample processing.** `ProcessorChain::process` and
  `ScopedNoDenormals` are float DSP in library code. `ProcessBlock` takes the
  processing of one chain over one channel as a parameter.
- **Concurrency.** The memory ordering of `juce::AbstractFifo` and of the
  `juce::Atomic` flags is not modelled. The relay and the dirty flag are
  modelled sequentially, with one producer and one consumer.
- **Persistence and host boilerplate.** `getStateInformation`,
  `setStateInformation`, `releaseResources`, the MIDI and program methods,
  `createEditor` and `createPluginFilter` are not part of this model.
- **GUI work.** `resized`, the slider attachments, listener registration and
  removal, `startTimerHz`, `setSize`, colours and stroking are not modelled.
- **Header declarations.** `Source/PluginProcessor.h` and
  `Source/PluginEditor.h` only hold declarations, and they are out of date
  with the `.cpp` files. The types come from `Source/PluginUtilities.h`.
- **Chain preparation.** `ProcessorChain::prepare` in `prepareToPlay` is
  modelled only as a reset of the filter state. The `ProcessSpec` it is given
  is not modelled. The host sample rate is a field of the processor. It is
  written by `PrepareToPlay` from its `hostSampleRate` argument, standing for
  the host setting the rate just before it calls `prepareToPlay`. A rate
  change at any other time is not modelled.
- Relay.SingleChannelSampleFifo.Prepare: when the block size changes,
  `setSize` may reuse the old storage because it is asked not to reallocate.
  The model writes the resized buffer as a new array of zeros. Only the
  samples are modelled, not which storage holds them.
- Processor.AudioProcessor.RunChains: the filter state is an uninspected
  value and `process` is a parameter. What a pass computes from that state is
  library code and is not modelled.
- Filters.MonoChain: the cut slots hold coefficient values, not shared
  pointers. Aliasing between slots that share one coefficient object is not
  modelled. Only the peak filter's coefficient object is a heap object,
  because that is the one `updateCoefficients` writes through.
- Filters.UpdateCutFilter: the bank is passed by value and the caller stores
  the result back, where the source updates the bank in place through a
  reference.
- Relay.SingleChannelSampleFifo.Update: requires a non-empty `bufferToFill`
  whenever samples arrive. The source writes out of range in that case.
- Processor.AudioProcessor.ProcessBlock: requires at least two channels and
  prepared relays with a non-empty block size. The source reads channel 1
  and writes into `bufferToFill` unconditionally (see Findings).
- Editor.ResponseArea: does not model `removeFromTop`'s clamping of negative
  heights; it requires a non-negative height.
- Editor.ResponseCurve: pixel positions are exact reals; `size_t`
  arithmetic and float rounding of the path coordinates are not modelled.

## Findings

| source | as written | input that shows it | evidently intended | confidence | as-written member | corrected member |
|---|---|---|---|---|---|---|
| Source/PluginProcessor.cpp:137-147 | `isBusesLayoutSupported` accepts a mono input with a mono output. `processBlock` then takes `getSingleChannelBlock(1)` unconditionally (Source/PluginProcessor.cpp:185). | A host that picks the mono/mono layout: the buffer has one channel, so channel 1 does not exist. | Accept only layouts that give `processBlock` two channels, i.e. stereo in and out. | not executed | Processor.MonoLayoutAcceptedWithOneChannel | Processor.StereoCheckGivesTwoChannels |
