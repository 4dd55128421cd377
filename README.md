# grid-reduce windowed reductions, modelled in Dafny

This project models the windowed-reduction engine of the Go package `reduce`.
The engine reads two ordered streams: date-keyed data chunks, each holding one
value per channel, and date windows. For each window it combines the chunks
dated inside it into one output chunk. The model covers:

- **the accumulators** (`Accumulate`, in `accum.dfy`). `Sum` keeps per-channel
  `sum` and `cnt` arrays. `Threshold` keeps `pCnt` and `cnt`, where `pCnt`
  counts the values that compare true against the threshold. Admission skips
  missing (NaN) values. At finalisation a channel is NaN when
  `Len() - cnt[idx] > MaxMissing`, and otherwise reports its sum or match
  count. `Total` and `Count` define what the arrays must hold for a list of
  admitted chunks. Admission (`AddChunk`) and retraction (`RemoveChunk`) are
  proved to be exact inverses against them.
- **the window synchroniser** (`Windowed`, in `windowed.dfy`). It is the
  `nextRange` closure plus the `dataLoop` that `Sum`, `SumOverlap`,
  `Threshold` and `ThresholdOverlap` share:
  - a chunk dated before the window's start is skipped;
  - a chunk dated inside `[Start, End]` is admitted;
  - a chunk at or past `End` closes the window, and windows are then taken
    until one does not end before the chunk;
  - at the end the last window is flushed and the rest of the input is read
    and discarded.

  `WindowRun` is the single-pass form. It resets the accumulator unless the
  new window starts where the last emitted one did. `SlidingRun` is the
  overlapping form. It keeps the retraction ledger (`firstDC`..`lastDC`, a
  singly linked list of `dataListItem` nodes in the source, a sequence here)
  and evicts the head chunks the new window's start has moved past.
- **the single-pass schedule** (`Schedule`, in `schedule.dfy`). It states
  the routing of `Sum`, `Threshold` and `None` as functions of the window and
  chunk streams alone. `NextRangeOf` is one `nextRange`, `AdvanceOf` the
  inner loop that takes windows, `StepOf` one pass of the data loop and
  `RunOf` the whole run. A `Pass` records the windows taken, the chunks
  accumulated since the last reset, every chunk admitted, and the window and
  chunk group of every output. `WindowRun` and `NoneRun` expose this state
  as `State()`, and each of their methods is proved to move it exactly as the
  corresponding function does.
- **the reductions** `SumReduce.Sum`, `SumReduce.SumOverlap`,
  `ThresholdReduce.Threshold`, `ThresholdReduce.ThresholdOverlap` and
  `NoneReduce.None`. `None` only counts admitted chunks. It emits a chunk with
  no data, dated by the last admitted chunk.
- **the reduction selector** `Reduce.Setup`. It maps `mean`, `sum` and
  `cnt_<op>_<value>`, together with the overlap flag, to a reduction
  function. It includes a hand-written recogniser for the threshold pattern
  `^(cnt)_(lt|gt|le|ge|eq)_([-+]?\d*\.?\d*)$`.

Each reduction is modelled as a class whose fields are the closure's
captured variables. `nextRange`, admission and the data loop are methods
proved against specification functions. `Emission(p, w, group)` is the
output a window emits over the chunks it accumulated. `Traced` says that the
outputs so far are those emissions, for strictly increasing window indices.

Conventions:
- Dates are integers.
- A window is `(start, end, len)`. The window type's `Resample` is a function
  parameter.
- A value is `Missing` (the source's NaN) or `Present(x)` over reals.
- Chunk and window streams are finite sequences. The output stream is a
  sequence the run appends to.

In `WindowRun.Fetch`, whether to reset is decided from the window about to
be taken, before that window is installed. This gives the same state as the
source, which installs the window first and then tests it.

## Model

| member | source | states |
|---|---|---|
| `Reduce.Setup` | reduce.go:35-76 | Name, overlap flag and missing limit are copied on every path, errors included; the error is absent exactly when a function is selected; mean and sum leave the threshold empty and zero |
| `Reduce.MatchThreshold` | reduce.go:30 | A match yields one of the five operators and a value text the pattern admits, and the name is exactly `cnt_` + operator + `_` + value text |
| `Reduce.ThresholdPatternExact` | reduce.go:30 | The threshold pattern matches a name exactly when it is `cnt_` + one of the five operators + `_` + a value text, and then yields that operator and text |
| `Reduce.ParseValue` | reduce.go:61-64 | Parsing a value text the pattern admitted succeeds exactly when the text holds a digit |
| `Reduce.SetupMeanSum` | reduce.go:41-57 | `mean` and `sum` select their overlapping variant exactly when the windows overlap, with no error |
| `Reduce.SetupThreshold` | reduce.go:59-73 | A matching threshold name with a digit selects Threshold or ThresholdOverlap by the overlap flag, with that operator and the parsed value; without a digit it fails with "invalid threshold" and no function |
| `Reduce.SetupAccepts` | reduce.go:35-76 | Setup succeeds exactly for `mean`, `sum` and parsable threshold names; it reports "unknown reduction" exactly for names that are neither and do not match the pattern |
| `Reduce.SetupThresholdOperator` | reduce.go:65-71 | Whenever a threshold function is selected, its operator is one of the five |
| `Reduce.ParseExample` | reduce.go:61 | The value text `2.5` is admitted and parses to 2.5 |
| `Reduce.SetupThresholdExample` | reduce.go:59-72 | `cnt_ge_2.5` selects Threshold with operator `ge` and value 2.5 |
| `Reduce.SetupErrorExamples` | reduce.go:59-75 | `cnt_lt_+` gives "invalid threshold"; `max` gives "unknown reduction" |
| `Accumulate.TalliesAppend` | sum.go:96-101 | Admitting a chunk adds exactly its per-channel gain and observation to the totals |
| `Accumulate.TalliesHead` | sum.go:197-202 | Retracting the head chunk's gain and observation from the totals of `[c] + cs` leaves exactly the totals of `cs` |
| `Accumulate.MissingTallies` | sum.go:96-100 | A channel missing in every admitted chunk has zero total and zero count |
| `Accumulate.CountBound` | threshold.go:143 | A channel's observation count never exceeds the number of admitted chunks (`obsCnt`) |
| `Accumulate.Matches` | threshold.go:96-141 | A comparison holds only under one of the five operators |
| `Accumulate.MatchesDuals` | threshold.go:96-141 | `lt` and `ge`, and `gt` and `le`, are complements; `le` and `ge` are `lt` and `gt` widened by `eq` |
| `Accumulate.MatchBound` | threshold.go:96-142 | A threshold match count lies between zero and the channel's observation count |
| `Accumulate.TalliesOfFour` | sum.go:96-101 | The totals of four chunks are their four gains and observations added up |
| `Accumulate.Gate` | sum.go:37-41 | A channel is NaN exactly when the expected count minus its observations exceeds `MaxMissing`, and otherwise holds the accumulated value |
| `Accumulate.Gated` | sum.go:35-42 | The gated payload has one entry per channel |
| `Accumulate.Emission` | sum.go:33-49 | An output has one entry per channel, is dated by resampling the last admitted chunk's date, and carries that chunk's offset and length |
| `Accumulate.GatedChannel` | sum.go:36-42 | A gated channel is NaN exactly when the window misses more than `MaxMissing` observations there, and otherwise holds the channel's total |
| `Accumulate.EmissionChannel` | sum.go:33-49 | An output has one entry per channel, NaN exactly under the missing-data gate and the accumulated value otherwise; its date resamples the last admitted chunk's date and its offset and length are that chunk's |
| `Accumulate.FinaliseChannels` | sum.go:34-42 | The emission loop gives one entry per channel, each the gate of its count and accumulated value |
| `Accumulate.FinalisedIsGated` | sum.go:34-42 | Finalising arrays that hold a group's totals yields that group's gated payload |
| `Accumulate.NewTotals` | sum.go:92-95 | Freshly allocated zero arrays hold the totals of no chunks |
| `Accumulate.AddChunk` | sum.go:96-101 | Each present value adds its gain and one observation to its channel, and missing values change nothing; arrays holding the totals of `cs` then hold those of `cs + [c]` |
| `Accumulate.RemoveChunk` | sum.go:197-202 | Each present value of the evicted chunk takes its gain and one observation back out of its channel; arrays holding the totals of `[c] + cs` then hold those of `cs` |
| `Accumulate.TotalsAdmit` | sum.go:96-101 | Per-channel admission results are the totals of the extended chunk list |
| `Accumulate.TotalsRetract` | sum.go:197-202 | Per-channel retraction results are the totals of the shortened chunk list |
| `Accumulate.EmittedPrefix` | sum.go:51-55 | Outputs are only appended: the emissions of prefixes of the windows and groups are a prefix of the emissions of the whole |
| `Accumulate.EmittedIndex` | sum.go:51-55 | Output `k` is the emission of window `ids[k]` over `groups[k]` |
| `Accumulate.TracedEmit` | sum.go:33-55 | Emitting a window not yet closed extends the trace and closes every window up to it |
| `Accumulate.TracedOutputs` | sum.go:32-69 | A finished trace has at most one output per window, and each output is its window's emission over the chunks accumulated for it |
| `Accumulate.GroupsFromStartEmit` | sum.go:86-89 | Emitting a group whose chunks are dated no earlier than its window's start keeps that true of every output |
| `Grid.DropBefore` | sum.go:191-212 | Eviction leaves a ledger that is empty or whose head is dated at or after the new start |
| `Grid.DropBeforeIsSince` | sum.go:191-212 | On date-ordered chunks, evicting head chunks dated before a start keeps exactly the chunks dated at or after it |
| `Grid.LedgerSlides` | sum.go:190-212 | A ledger that held the chunks at or after the old start holds, after eviction, exactly those at or after a later start |
| `Grid.SinceSorted` | sum.go:251-258 | The chunks a start covers are chunks of the history, in order, and stay ordered |
| `Grid.SinceSince` | sum.go:190-212 | Filtering by a start and then a later start is filtering by the later start |
| `Grid.IncreasingIndicesBound` | sum.go:32-69 | Outputs tagged with strictly increasing window indices are no more than the windows |
| `Schedule.NextRangeOf` | sum.go:32-69 | `nextRange` takes a window exactly when one is left; it reports the accumulated chunks, under the current window and with its start as the last emitted start, exactly when there are any; it keeps them only when the new window starts at the last emitted start; it admits nothing |
| `Schedule.AdvanceOf` | sum.go:107-118 | The inner loop as a function of the pass; no contract of its own: `AdvanceOfTurn`, `AdvanceOfFacts`, `AdvanceAccounts` and `AdvanceHistory` state what it does |
| `Schedule.StepOf` | sum.go:86-119 | One pass of the data loop as a function of the pass and the chunk, as written; no contract of its own: `StepAccounts` and `StepOfPastEnd` state what it does, and the run methods' `Step` ensures tie their state to it |
| `Schedule.LoopOf` | sum.go:75-120 | The data loop as a function of the pass and the rest of the input; no contract of its own: `LoopAccounts` and `LoopOfSingleWindow` state what it does |
| `Schedule.RunOf` | sum.go:71-124 | The whole single pass as a function of the windows and the input; no contract of its own: `RunAccounts` and `RunOfSingleWindow` state what it computes, and `Sum`, `Threshold` and `None` ensure their outputs follow it |
| `Schedule.AdvanceOfTurn` | sum.go:107-118 | After one `nextRange` the inner loop goes on exactly when the window just taken ends before the chunk, and otherwise stops there |
| `Schedule.AdvanceOfFacts` | sum.go:107-118 | The inner loop takes at least one window, skips only windows ending before the chunk, stops at one that does not unless the windows run out, reports the accumulated chunks (again for each following window with the same start) and admits nothing |
| `Schedule.NextRangeAccounts` | sum.go:32-69 | `nextRange` loses no admitted chunk: what it stops accumulating it has just reported, and what it keeps is reported too |
| `Schedule.AdvanceAccounts` | sum.go:107-118 | The inner loop loses no admitted chunk |
| `Schedule.StepAccounts` | sum.go:86-119 | One pass of the data loop loses no admitted chunk and admits at most the chunk it read |
| `Schedule.AdvanceHistory` | sum.go:107-118 | The inner loop admits nothing |
| `Schedule.LoopAccounts` | sum.go:75-120 | The data loop loses no admitted chunk and admits only chunks of its input |
| `Schedule.RunAccounts` | sum.go:71-124 | Every chunk a single pass admits is in some output's group, every chunk of an output's group was admitted, and only input chunks are admitted |
| `Schedule.RunOfSingleWindow` | sum.go:71-124 | One window over chunks that all lie in it, only the last possibly on its end, gives exactly one output, for that window, over all the chunks |
| `Schedule.LoopOfSingleWindow` | sum.go:75-120 | Within a single window the data loop accumulates every chunk, and the final flush reports them all as window 0 |
| `Schedule.StepOfPastEnd` | sum.go:105-119 | As written, a chunk dated past the current window's end is admitted nowhere |
| `Schedule.PastEndChunkDropped` | sum.go:86-119 | Over windows [1, 4] and [5, 8] and chunks dated 1, 2, 3 and 6, the run reports only the first three: the chunk dated 6 lies in the second window but is in no output |
| `Schedule.StepIntended` | sum.go:105-119 | The evidently intended step, which offers a chunk past the end to the window advanced to; no contract of its own: `StepIntendedAdmits` and `PastEndChunkKept` state what it does |
| `Schedule.StepIntendedAdmits` | sum.go:105-119 | With the intended step, a chunk is admitted whenever it lies in the window current once the windows have been advanced to it |
| `Schedule.PastEndChunkKept` | sum.go:105-119 | With the intended step, the chunk dated 6 advances the windows to [5, 8] and is admitted there |
| `Windowed.WindowRun.constructor` | sum.go:22-30 | A run starts with no window, no output, nothing accumulated and no arrays |
| `Windowed.WindowRun.Finalise` | sum.go:34-49 | The output of the current window is its emission over the chunks accumulated since the last reset |
| `Windowed.WindowRun.Emit` | sum.go:33-56 | A window that admitted something emits exactly one output and becomes the last emitted start; nothing else changes |
| `Windowed.WindowRun.Fetch` | sum.go:58-67 | The next window is taken, or the windows have run out; the accumulator is cleared unless a window was taken whose start equals the last emitted start |
| `Windowed.WindowRun.Reset` | sum.go:64-67 | Reset clears the count and the sum array and leaves the rest unchanged |
| `Windowed.WindowRun.Install` | sum.go:58-62 | Receiving a window makes it current and counts it; receiving none marks the windows exhausted |
| `Windowed.WindowRun.NextRange` | sum.go:32-69 | One `nextRange` emits at most one output, only when `obsCnt > 0`, then takes a window and applies the reset rule; its routing state moves exactly as `Schedule.NextRangeOf` says |
| `Windowed.WindowRun.Accrue` | sum.go:92-101 | Admission allocates the arrays when there are none and then adds the chunk's totals |
| `Windowed.WindowRun.Admit` | sum.go:90-104 | Admitting a chunk in the window adds its totals, raises `obsCnt` by one and records it as the last admitted chunk (`inDC1`) |
| `Windowed.WindowRun.TakeUntil` | sum.go:107-118 | The inner loop takes windows until they run out (`stop`) or one does not end before the chunk, moving the routing state exactly as `Schedule.AdvanceOf` says, with the arrays kept |
| `Windowed.WindowRun.Advance` | sum.go:105-119 | Windows are finalised and taken until they run out or one does not end before the chunk; every window skipped on the way ends before it; the first output, if any, is the closed window's emission; nothing is admitted, and the routing state moves exactly as `Schedule.AdvanceOf` says |
| `Windowed.WindowRun.Step` | sum.go:86-119 | Skip before the start with no state change, the last emitted start included; admit inside `[Start, End]`; at `End` emit including the chunk; past `End` emit without it, admit nothing and keep or clear the accumulator; the routing state moves exactly as `Schedule.StepOf` says |
| `Windowed.WindowRun.Run` | sum.go:71-136 | The whole run leaves every window closed and a trace of at most one emission per window, in window order, over chunks read from the input and dated no earlier than the window's start; its windows, groups and admitted chunks are exactly those of `Schedule.RunOf` over the windows and the input |
| `Windowed.DrawnEmit` | sum.go:171-175 | Emitting the ledger, a tail of the admitted chunks, finalises only admitted chunks |
| `Windowed.CoveredSlides` | sum.go:190-212 | Eviction to a later start keeps the ledger equal to the admitted chunks that start covers |
| `Windowed.LedgerGrows` | sum.go:251-258 | Appending an admitted chunk at the ledger's tail keeps the ledger the tail of the admitted history, covering the current start |
| `Windowed.ReadInOrder` | sum.go:224-233 | Chunks admitted so far were read from the input prefix, and ordered input keeps them ordered |
| `Windowed.SlidingRun.constructor` | sum.go:150-158 | A run starts with no window, an empty ledger, no output and no arrays |
| `Windowed.SlidingRun.Finalise` | sum.go:161-175 | The output of the current window is its emission over the ledger, dated by `lastDC` |
| `Windowed.SlidingRun.Emit` | sum.go:161-182 | A window with a non-empty ledger emits exactly one output over that ledger; nothing else changes |
| `Windowed.SlidingRun.Evict` | sum.go:192-208 | Evicting the head chunk retracts its totals, lowers `obsCnt` by one and drops the arrays when the ledger empties |
| `Windowed.SlidingRun.Retract` | sum.go:190-212 | The eviction loop leaves exactly the ledger with the head chunks dated before the new start dropped, and arrays holding its totals |
| `Windowed.SlidingRun.Take` | sum.go:184-189 | The next window is taken, or, when the windows run out, `obsCnt` is cleared while the ledger stays |
| `Windowed.SlidingRun.Slide` | sum.go:190-212 | Retracting to the new window's start restores the invariant, with the ledger covering that start |
| `Windowed.SlidingRun.Fetch` | sum.go:184-216 | A window is taken and the ledger retracted to its start; window exhaustion only clears `obsCnt` |
| `Windowed.SlidingRun.NextRange` | sum.go:160-218 | One `nextRange` emits at most one output, over the current ledger and only when `obsCnt > 0`, then takes a window and retracts; afterwards every chunk admitted so far is in some output's ledger, and the windows taken are those of `Schedule.NextRangeOf` |
| `Windowed.SlidingRun.Accrue` | sum.go:240-249 | Admission allocates the arrays when the ledger is empty and then adds the chunk's totals |
| `Windowed.SlidingRun.Admit` | sum.go:239-259 | Admitting a chunk adds its totals, appends it at the ledger's tail and raises `obsCnt` by one; `obsCnt` stays the ledger's length and the arrays its totals |
| `Windowed.SlidingRun.TakeNext` | sum.go:261-271 | One turn of the inner loop: a `nextRange` that emits the current window over a non-empty ledger, takes window `received` when there is one and retracts the ledger to its start; it says when the loop goes on |
| `Windowed.SlidingRun.TakeUntil` | sum.go:261-272 | Windows are taken until they run out (`stop`) or one does not end before the chunk. Every window passed over ends before the chunk. The first output is the closed window's emission over the ledger. Every output is its window's emission over the old ledger retracted to the starts of the windows taken up to it, and the ledger left is the old one retracted to all of them (`Windowed.Advanced`). The windows taken are those of `Schedule.AdvanceOf` |
| `Windowed.SlidingRun.Advance` | sum.go:260-273 | The same as `TakeUntil`, from a window the chunk has reached the end of: every window passed over ends before the chunk, and every output of the advance and the ledger left behind are the retractions `Windowed.Advanced` states |
| `Windowed.SlidingRun.Close` | sum.go:239-273 | A chunk at or past the window's end joins the ledger when it lies on the end and then advances the windows, with `Windowed.Advanced` stated over the ledger including the chunk on the end and excluding it past the end; the pass moves as `Schedule.StepOf` says |
| `Windowed.SlidingRun.Step` | sum.go:235-273 | Skip before the start with no state change; admit inside `[Start, End)`; at or past `End`, the outputs and the ledger are as `Windowed.Advanced` states over the ledger with the chunk (at `End`) or without it (past `End`); the pass moves as `Schedule.StepOf` says and every admitted chunk is reported or in the ledger |
| `Windowed.SlidingRun.DataLoop` | sum.go:224-274 | The data loop stops when the input or the windows run out; the pass it leaves is `Schedule.LoopOf`'s, and for ordered input what it admitted is ordered |
| `Windowed.SlidingRun.Run` | sum.go:220-290 | The whole run leaves every window closed and a trace of at most one emission per window over ledgers of chunks read from the input. The chunks it admits are exactly those of the single pass `Schedule.RunOf`, in order when the input is ordered, and every one of them is in some output's ledger |
| `Windowed.AdvancedFirst` | sum.go:160-218 | One `nextRange` is an advance over at most one window, in the sense of `Windowed.Advanced` |
| `Windowed.AdvancedThen` | sum.go:261-272 | Advancing over one window and then on from the next is one advance: the retractions compose window by window |
| `Grid.RetractedToLatest` | sum.go:190-212 | Running the eviction loop once per window taken leaves the ledger retracted to the latest start among those windows |
| `Grid.DropBeforeTwice` | sum.go:190-212 | Retracting to one start and then to another is retracting to the later of the two |
| `Accumulate.EmittedFirst` | sum.go:51-55 | When outputs were only appended to and a non-empty ledger was finalised first, the first new output is its emission under its window; when none was, nothing was added |
| `SumReduce.Sum` | sum.go:13-139 | The outputs report exactly the windows and chunk groups `Schedule.RunOf` computes from the windows and the input, each the gated sum of its group; every chunk the pass admits is in some output's group; at most one output per window, in window order |
| `SumReduce.SumOverlap` | sum.go:141-293 | At most one output per window, in window order; each is the gated sum of the ledger it finalised, all read from the input; every chunk the single pass `Schedule.RunOf` admits is in some output's ledger |
| `SumReduce.SumOneWindow` | sum.go:71-136 | `Sum` over one window whose chunks lie in it, the last on its end, emits exactly one output: the window's emission over all of them |
| `SumReduce.SumBasicExample` | sum_test.go:15-69 | `Sum` over daily values 0, 1, 2, 3 in one four-day window with one missing day allowed emits one output, 6 in every channel |
| `SumReduce.SumMissingExamples` | sum_test.go:71-181 | `Sum` over one four-day window emits one all-NaN output when one day is missing and none is allowed, and when all four are missing and one is allowed |
| `SumReduce.OnesTallies` | sum.go:96-101 | A channel reading 1 except on its first `m` missing days sums to, and counts, the days observed |
| `SumReduce.SumToleranceBoundary` | sum_test.go:183-238 | `Sum` over a 31-day window allowing one missing day emits one output: one missing day gives 30, none gives 31, and two or more give NaN |
| `SumReduce.AllMissingWindow` | sum.go:36-42 | A channel missing throughout a window is NaN exactly when `Len()` exceeds `MaxMissing`, and 0 otherwise |
| `ThresholdReduce.Threshold` | threshold.go:13-180 | The outputs report exactly the windows and chunk groups `Schedule.RunOf` computes from the windows and the input, each the gated match count of its group; every chunk the pass admits is in some output's group; at most one output per window, in window order |
| `ThresholdReduce.ThresholdOverlap` | threshold.go:182-416 | At most one output per window, in window order; each is the gated match count of the ledger it finalised, using the intended inverse retraction; every chunk the single pass `Schedule.RunOf` admits is in some output's ledger |
| `ThresholdReduce.ThresholdEmissionBound` | threshold.go:92-145 | Every threshold output channel is NaN or a count between zero and the channel's observation count, which is at most the chunks admitted |
| `ThresholdReduce.UnknownOperatorCountsNothing` | threshold.go:96-142 | An operator outside the five leaves every channel's match and observation counts at zero |
| `ThresholdReduce.ThresholdExample` | threshold.go:96-105 | `Threshold` counting values below 5 in 1, 7, NaN, 3 over one four-day window allowing one missing day emits one output, 2 |
| `ThresholdReduce.MixedDaysCount` | threshold.go:96-105 | The emission of a four-day window over 1, 7, NaN, 3 under `lt 5` with one missing day allowed is 2 |
| `ThresholdReduce.ThresholdOneWindow` | threshold.go:13-180 | `Threshold` over one window whose chunks lie in it, the last on its end, emits exactly one output: the window's emission over all of them |
| `ThresholdReduce.WrittenDrop` | threshold.go:238-284 | The as-written retraction takes one off a match count exactly for a present value that was observed and did not match, and nothing otherwise |
| `ThresholdReduce.RetractAsWritten` | threshold.go:238-284 | The retraction loop as written reads the current chunk, raises each present channel's count by one and lowers the match count where the comparison fails |
| `ThresholdReduce.AsWrittenCountDiverges` | threshold.go:238-284 | As written, evicting a chunk with a present value never brings the observation count down to that of the remaining chunks |
| `ThresholdReduce.AsWrittenRetractionExample` | threshold.go:238-284 | Over windows [1, 2] and [2, 3] under `lt 5` with chunks reading 1 on days 1 to 3, the as-written retraction makes the second window emit 3; the inverse retraction leaves the tallies of days 2 and 3, which emit 2 |
| `NoneReduce.NoneEmission` | none.go:35-39 | A `None` output carries no data, the resampled date of the last admitted chunk and that chunk's offset and length |
| `NoneReduce.NoneRun.constructor` | none.go:24-30 | A run starts with no window, no output and nothing admitted |
| `NoneReduce.NoneRun.Finalise` | none.go:35-39 | The output of the current window is its data-less emission |
| `NoneReduce.NoneRun.Emit` | none.go:33-45 | A window that admitted something emits exactly one output and becomes the last emitted start |
| `NoneReduce.NoneRun.Fetch` | none.go:47-55 | The next window is taken; `obsCnt` is cleared unless a window was taken whose start equals the last emitted start |
| `NoneReduce.NoneRun.NextRange` | none.go:32-57 | One `nextRange` emits at most one output, only when `obsCnt > 0`, and then records the window's start as the last emitted start (otherwise keeping it); it takes a window and clears the admitted chunks unless the new window starts at the last emitted start; the routing state moves exactly as `Schedule.NextRangeOf` says |
| `NoneReduce.NoneRun.Admit` | none.go:78-82 | Admission only raises `obsCnt` by one and records the chunk as `inDC1` |
| `NoneReduce.NoneRun.TakeUntil` | none.go:85-96 | The inner loop takes windows until they run out (`stop`) or one does not end before the chunk, moving the routing state exactly as `Schedule.AdvanceOf` says |
| `NoneReduce.NoneRun.Advance` | none.go:83-97 | Windows are finalised and taken until they run out or one does not end before the chunk; every window skipped on the way ends before it; nothing is admitted, and the routing state moves exactly as `Schedule.AdvanceOf` says |
| `NoneReduce.NoneRun.Step` | none.go:74-97 | Skip before the start with no state change; admit inside `[Start, End]`; at `End` emit including the chunk; past `End` emit without it and admit nothing; the routing state moves exactly as `Schedule.StepOf` says |
| `NoneReduce.NoneRun.Run` | none.go:59-114 | The whole run leaves at most one output per window, in window order, over chunks read from the input; its windows, groups and admitted chunks are exactly those of `Schedule.RunOf` |
| `NoneReduce.None` | none.go:17-117 | The outputs report exactly the windows and chunk groups `Schedule.RunOf` computes, each with no data and the resampled date and position of the last chunk of its group; every chunk the pass admits is in some output's group |

## Left out

- Concurrency is not modelled: `ctx.Done()` cancellation, `defer close(outData)` and blocking channel sends. The streams are sequences, and a run always reads its input to the end.
- float32 arithmetic is not modelled: values are reals. Retraction is therefore exact here, which float rounding does not guarantee.
- NaN detection by self-inequality (`v == v`) is the `Missing` constructor.
- The external date and chunk types are not modelled. Dates are integers; `Len()` is a window field; `Resample` is a function parameter; offset and length are plain integers copied forward.
- The regular-expression engine is replaced by a recogniser for the one pattern. `strconv.ParseFloat` is replaced by "the value text holds a digit" plus exact decimal reals, so float32 range errors and rounding are not modelled.
- `Mean` and `MeanOverlap` appear only as `Setup` outcomes; their bodies are not part of this model.
- `alog.Debugf` logging is not modelled.
- The windows run by the test file's JSON parameters and the `datechan` generator are not modelled; the examples restate its assertions over given windows.
- An empty window source is excluded: every run requires at least one window. The source then compares chunks against a zero-value window.
- Every chunk of a run has the same number of channels. The source sizes its arrays from the first admitted chunk and would index out of range on a wider one.
- The ledger's linked `dataListItem` nodes are a sequence. Node identity and aliasing are not modelled.
- Once the windows run out, the source overwrites `dr` with a zero value; the model keeps the last window. Nothing reads `dr` after that point.
- SumReduce.SumOverlap: the contract does not state that each output's group is exactly the input chunks its window covers. That fact, for ordered input and window starts, is proved only for the current ledger (the `Covered` conjunct of `SlidingRun`'s invariant, with `Grid.DropBeforeIsSince` and `Grid.LedgerSlides`). Per step, `SlidingRun.Step` states each output's ledger as a retraction of the ledger before the step (`Windowed.Advanced`); this is not carried to the whole run.
- ThresholdReduce.ThresholdOverlap: the same as `SumOverlap`. It also models the intended retraction, not the one written (see Findings).
- Windowed.SlidingRun.Run: the same as `SumOverlap`.
- The inner `for` loop of the data loop, which takes windows until one does not end before the chunk, is `TakeUntil` in `WindowRun`, `NoneRun` and `SlidingRun`: a method that calls itself once per window taken, rather than a `while` loop. The windows taken, the exits and the state left behind are the same.
- The single-pass runs (`WindowRun`, `NoneRun`, and so `Sum`, `Threshold` and `None`) keep the code's handling of a chunk dated past the window's end: it is admitted nowhere (see Findings). `SlidingRun` does the same. The intended step, `Schedule.StepIntended`, is proved about but not run.
- A channel missing throughout a window reports 0, not NaN, when `MaxMissing >= Len()` (sum.go:36-42); see `SumReduce.AllMissingWindow`.

## Findings

| source | as written | input that shows it | evidently intended | confidence | as-written member | corrected member |
|---|---|---|---|---|---|---|
| threshold.go:238-284 | The `ThresholdOverlap` retraction loop reads `inDC.Data`, the chunk being processed, instead of the evicted `firstDC.data`. It does `cnt[idx]++`, and `pCnt[idx]--` under the negated comparison. | Windows [1, 2] and [2, 3], each expecting 2 observations, under `lt 5` with `MaxMissing` 0, and one-channel chunks reading 1 on days 1, 2 and 3. Taking the second window evicts day 1 while day 2 is being read, leaving `pCnt = 2` and `cnt = 3`. After day 3 the second window emits 3, where its two chunks give 2. | Retraction is the inverse of admission on the evicted chunk: `cnt[idx]--`, and `pCnt[idx]--` when the comparison held, as `SumOverlap` does at sum.go:197-202 | high; not executed | `ThresholdReduce.RetractAsWritten`, `ThresholdReduce.AsWrittenRetractionExample` | `Accumulate.RemoveChunk` |
| sum.go:105-119 | A chunk at or past the window's end closes the window and takes windows until one does not end before it. The loop then reads the next chunk, so a chunk past the end is never offered to the window it advanced to. `None` (none.go:83-97), `Threshold` and `SumOverlap` (sum.go:260-273) have the same loop. | Windows [1, 4] and [5, 8], chunks dated 1, 2, 3 and 6: the run emits one output, over the first three, and the chunk dated 6, inside [5, 8], is in no output. In overlap mode, with four-day windows starting each day ([1, 4], [2, 5], …) and the chunk of day 4 missing, each later chunk arrives one window late in the same way, so none from day 5 on is admitted. | After advancing, the chunk is handled under the window it advanced to: skipped before its start, admitted inside it | medium; not executed | `Schedule.StepOf`, `Schedule.StepOfPastEnd`, `Schedule.PastEndChunkDropped` | `Schedule.StepIntended`, `Schedule.StepIntendedAdmits`, `Schedule.PastEndChunkKept` |
