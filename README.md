# Grids drum sequencer core, modelled in Dafny

This project models the integer core of the `drumseq_mi` Daisy Patch.Init
firmware. It has two parts.

- **The Grids drum pattern generator.** This is a port of Mutable
  Instruments Grids. A 5 x 5 map of 96-byte nodes holds 3 parts x 32 steps
  of threshold levels. A position (x, y) is read by a two-stage 8-bit
  crossfade. A 16-bit Galois LFSR re-rolls three perturbation bytes once
  per 32-step cycle. Each part fires when its perturbed level is above the
  inverted density, and it is accented above 192.
- **The clock and scheduling engine of the audio callback.** Once per block
  it does the following:
  - detects rising edges on the clock and reset gates;
  - runs the internal accumulate-and-subtract clock;
  - latches into external-clock mode on a clock edge;
  - measures the external period and multiplies it by 4 through three
    interpolated sub-ticks;
  - dispatches each tick to the generator with one density fanned out to
    all three parts;
  - counts down the 480-sample trigger-output holds.

Module layout, one file per component:

| file | module | contents |
|---|---|---|
| `fixed_point.dfy` | `FixedPoint` | `uint8_t` arithmetic: `U8U8MulShift8`, `U8Mix`, the `x << 2` weight |
| `lfsr.dfy` | `Lfsr` | the LFSR step on `bv16`, its inverse and injectivity |
| `grids_nodes.dfy` | `GridsNodes` | node layout, the 5 x 5 `drum_map` and its bijection with the 25 nodes |
| `node_extract.dfy` | `NodeExtract` | the node-table generator's length and completeness checks |
| `grids.dfy` | `Grids` | the pure tick (`TickFn`) and the class `GridsDrumGenerator` |
| `clock.dfy` | `Clock` | gate edges, accumulators, external clock and multiplier, holds, sub-mode |
| `engine.dfy` | `Engine` | one audio callback as a function (`Block`) and as the class `Sequencer` |

Each stateful entity is a class whose methods are proved against a pure
function of the old state. `GridsDrumGenerator.Tick` is proved against
`TickFn`, and `Sequencer.ProcessBlock` against `Block`. The lemmas about
those functions carry the properties. The node bytes are compiled-in data
(`grids_nodes.cpp`), and that file is not part of this model. Every
statement therefore holds for any table of 25 nodes of 96 bytes
(`NodeTable`), and the generator takes that table as a constant.
`samples_per_tick` for the internal and the edit clock is a natural-number
parameter.

Where the code and its design description disagree, the model follows the
code.

- **Density 0.** The threshold is `~density`, which is 255 for density 0.
  So density 0 never fires, not even at level 255 (`Grids.PartOutcome`).
  Density 255 fires exactly when the level is nonzero.
- **First external edge.** The first edge after power-up or after a reset
  produces no tick. No period is known yet, so the tick is guarded by
  `period > 0` (`Clock.FirstEdgeNoTick`). The next edge ticks and sets the period to the
  samples between the two, provided the first edge was recorded at a nonzero
  sample count and the second comes at least one sample later
  (`Clock.PeriodIsEdgeDistance`). Only zero-size blocks can break either
  condition: an edge at sample count 0 counts as no edge, so the edge after
  it sets no period and does not tick (`Clock.EdgeAtZeroSetsNoPeriod`).
- **Reset order.** A reset edge zeroes the multiplier phase and resets
  Grids before the clock edge is handled. It clears the latch, the period
  and the last edge only after that, so reset still wins over a clock edge
  in the same block.
- **`U8Mix` endpoints.** The inline comment says balance 0 gives `a`. The
  code gives `(a * 255) >> 8`, which is `a - 1` for nonzero `a`. On an
  exact grid point `ReadDrumMap` therefore returns the corner level minus 2,
  floored at 0 (`Grids.ReadDrumMapBounds`).

## Model

| member | source | states |
|---|---|---|
| `FixedPoint.U8U8MulShift8` | drumseq_mi/src/grids_port.cpp:37-40 | the top byte of the 16-bit product is at most each factor, strictly below a nonzero `b`, and is the floor of a*b/256 |
| `FixedPoint.MixSumBounds` | drumseq_mi/src/grids_port.cpp:46-47 | the crossfade sum lies between 255 x min and 255 x max of the endpoints, so the `uint16_t` sum never wraps |
| `FixedPoint.U8Mix` | drumseq_mi/src/grids_port.cpp:42-49 | the crossfade never exceeds max(a, b), is strictly below a nonzero max, is at least min(a, b) - 1, and balance 0 / 255 give a - 1 / b - 1 floored at 0 |
| `FixedPoint.ShiftLeft2` | drumseq_mi/src/grids_port.cpp:68-70 | the `uint8_t` cast of `c << 2` is (c mod 64) x 4 |
| `Lfsr.Next` | drumseq_mi/src/grids_port.cpp:30-35 | one LFSR step shifts right and XORs 0xB400 exactly when the low bit was 1; a nonzero state stays nonzero |
| `Lfsr.HighByte` | drumseq_mi/src/grids_port.cpp:34 | the byte `RandByte` returns is the new state shifted right by 8 |
| `Lfsr.PrevNext` | drumseq_mi/src/grids_port.cpp:32-33 | the step can be undone: `Prev(Next(s)) == s` |
| `Lfsr.NextPrev` | drumseq_mi/src/grids_port.cpp:32-33 | every state has a predecessor: `Next(Prev(n)) == n` |
| `Lfsr.NextInjective` | drumseq_mi/src/grids_port.cpp:32-33 | two states with the same successor are equal, so the step permutes the 16-bit states |
| `GridsNodes.NodeOffset` | drumseq_mi/include/grids_nodes.h:7 | instrument * 32 + step is below 96 and decodes back to (instrument, step) |
| `GridsNodes.MapNode` | drumseq_mi/src/grids_port.cpp:9-15 | every cell of the 5 x 5 map names a node 0..24, and `MapCell` gives that cell back |
| `GridsNodes.MapCell` | drumseq_mi/src/grids_port.cpp:9-15 | every node 0..24 sits in some cell of the map |
| `GridsNodes.DrumMapIsBijection` | drumseq_mi/src/grids_port.cpp:9-15 | distinct cells hold distinct nodes and every node is held, so each of the 25 nodes appears exactly once |
| `NodeExtract.LastValuesKept` | drumseq_mi/tools/extract_grids_nodes.py:36-43 | a stored node comes from a scanned array with that index in 0..24 |
| `NodeExtract.MissingBelowExact` | drumseq_mi/tools/extract_grids_nodes.py:45-47 | the missing list holds exactly the node indices without a stored array |
| `NodeExtract.ExtractNodes` | drumseq_mi/tools/extract_grids_nodes.py:35-47 | the first kept array whose length is not 96 is refused; otherwise any missing index in 0..24 is refused; else the table has 25 nodes of 96 values, each the last array with that index |
| `Grids.ReadDrumMap` | drumseq_mi/src/grids_port.cpp:51-71 | the quadrant `x >> 6`, `y >> 6` and its right and lower neighbours index the 5 x 5 map within bounds, the offset is inside the node, and the level is at most 253 |
| `Grids.Interpolate` | drumseq_mi/src/grids_port.cpp:68-70 | the two-stage crossfade stays between min corner - 2 and max corner, and at weight 0 it is the first corner - 2 floored at 0 |
| `Grids.ReadDrumMapBounds` | drumseq_mi/src/grids_port.cpp:51-71 | the level read at (x, y) lies between the smallest corner of its cell minus 2 and the largest corner; on a grid point it is the corner minus 2 |
| `Grids.PerturbationOf` | drumseq_mi/src/grids_port.cpp:83-86 | a perturbation is at most `randomness >> 2` and at most 62, and 0 when randomness < 4 |
| `Grids.Reroll` | drumseq_mi/src/grids_port.cpp:81-87 | the re-roll steps the LFSR exactly three times, keeps it nonzero, and bounds each part's perturbation by `randomness >> 2` |
| `Grids.Perturbed` | drumseq_mi/src/grids_port.cpp:99-103 | the perturbed level is min(level + p, 255): it never wraps and is never below the interpolated level |
| `Grids.PartOutcome` | drumseq_mi/src/grids_port.cpp:105-111 | trigger iff level + density > 255; accent iff trigger and level > 192; density 0 never fires; density 255 fires iff level > 0 |
| `Grids.NextState` | drumseq_mi/src/grids_port.cpp:81-87 | the step becomes (step + 1) mod 32; LFSR and perturbation change only at step 0, and then to the re-roll; validity is kept |
| `Grids.ResetState` | drumseq_mi/src/grids_port.cpp:24-28 | a reset leaves step 0 and no perturbation, keeps the LFSR, and yields a valid state exactly when the LFSR is nonzero |
| `Grids.StepOutcome` | drumseq_mi/src/grids_port.cpp:89-120 | no part is accented without being triggered (per-part levels in `StepOutcomeParts`) |
| `Grids.TickFn` | drumseq_mi/src/grids_port.cpp:73-126 | a tick advances the step by one modulo 32, touches LFSR and perturbation only at step 0, keeps a valid state valid, and accents only triggered parts |
| `Grids.StepOutcomeParts` | drumseq_mi/src/grids_port.cpp:89-120 | each part's trigger and accent flag are those of its perturbed level and density, and every accent comes with a trigger |

| `Grids.RunState` | drumseq_mi/src/grids_port.cpp:123 | any run of ticks keeps the step in 0..31 and the LFSR nonzero |
| `Grids.RunAdvancesStep` | drumseq_mi/src/grids_port.cpp:123 | n ticks advance the step by n mod 32, so every 32 ticks return it to where it started |
| `Grids.PerturbationLockedWithinCycle` | drumseq_mi/src/grids_port.cpp:81-87 | ticks that start after step 0 and stay within the cycle leave LFSR and perturbation unchanged |
| `Grids.LowRandomnessKeepsZeroPerturbation` | drumseq_mi/src/grids_port.cpp:83-86 | from zero perturbation, ticks with randomness below 4 keep the perturbation zero |
| `Grids.UnperturbedOutcome` | drumseq_mi/src/grids_port.cpp:96-111 | with zero perturbation and randomness below 4 each part's trigger and accent are those of its bare interpolated level against its density, i.e. the reference outcome `Unperturbed` |
| `Grids.DensityMonotone` | drumseq_mi/src/grids_port.cpp:105-106 | raising a part's density never removes its trigger |
| `Grids.GridsDrumGenerator.constructor` | drumseq_mi/include/grids_port.h:42-44 | a fresh generator has `rng_state_ = 1`, `step_ = 0` and no perturbation |
| `Grids.GridsDrumGenerator.Init` | drumseq_mi/src/grids_port.cpp:18-22 | the LFSR gets the seed, or 1 for seed 0, then step and perturbation are reset; the default seed is 1 |
| `Grids.GridsDrumGenerator.Reset` | drumseq_mi/src/grids_port.cpp:24-28 | step 0 and zero perturbation, LFSR untouched |
| `Grids.GridsDrumGenerator.RandByte` | drumseq_mi/src/grids_port.cpp:30-35 | the LFSR takes one step and the high byte of the new state is returned |
| `Grids.GridsDrumGenerator.Step` | drumseq_mi/include/grids_port.h:39 | reads `step_` without changing anything, and it is in 0..31 |
| `Grids.GridsDrumGenerator.RerollPerturbation` | drumseq_mi/src/grids_port.cpp:81-87 | three `RandByte` draws, each scaled by `randomness >> 2`, become the three perturbations, as `Reroll` |
| `Grids.GridsDrumGenerator.RerollAtCycleStart` | drumseq_mi/src/grids_port.cpp:81-87 | the perturbation and LFSR state are re-rolled only at step 0, leaving them as `NextState` has them and the step untouched |
| `Grids.GridsDrumGenerator.Compare` | drumseq_mi/src/grids_port.cpp:96-111 | one part's saturating perturbation and threshold comparison equal `PartOutcome` of `Perturbed` |
| `Grids.GridsDrumGenerator.Evaluate` | drumseq_mi/src/grids_port.cpp:89-120 | the loop over the three parts fills the trigger and accent arrays and returns `StepOutcome`; all flags start false |
| `Grids.GridsDrumGenerator.Tick` | drumseq_mi/src/grids_port.cpp:73-126 | new state and result are `TickFn` of the old state and the six arguments alone, so equal states and equal arguments give equal results |
| `Clock.HeldGateRisesOnce` | drumseq_mi/src/main.cpp:211-216 | a gate held high over many blocks gives one rising edge, in its first block and only if it was low before |
| `Clock.RisingEdge` | drumseq_mi/src/main.cpp:213-214 | a gate's rising edge: high now and low in the previous block; `HeldGateRisesOnce` and `EdgesNeedLowLevels` bound how often it fires |
| `Clock.EdgesNeedLowLevels` | drumseq_mi/src/main.cpp:213-216 | the number of rising edges is at most the number of low blocks plus one |
| `Clock.AccumulatorTick` | drumseq_mi/src/main.cpp:160-174 | add the block; on reaching `samples_per_tick` subtract it and tick once; no sample is lost; below-threshold stays below when blocks are no longer than the threshold |
| `Clock.AccumulatorRunCount` | drumseq_mi/src/main.cpp:167-172 | over a run of blocks the tick count is floor((acc + total) / spt) and the remainder is what is left in the accumulator |
| `Clock.ExtClockStep` | drumseq_mi/src/main.cpp:247-306 | one block of the external clock: period measured only when `0 < last_edge < now`, edge recorded, counter and phase restarted, latch set; reset clears latch, period and edge and wins; ticks only while latched with a known period |
| `Clock.SilenceKeepsLatch` | drumseq_mi/src/main.cpp:257-280 | blocks without clock or reset edges never leave external mode and keep the period and the last edge |
| `Clock.SubTicksArePhaseSteps` | drumseq_mi/src/main.cpp:293-304 | between edges every tick advances the phase, so there are at most three sub-ticks |
| `Clock.SilentBlockOnSchedule` | drumseq_mi/src/main.cpp:293-304 | with blocks no longer than the interval, the phase stays equal to the number of interval multiples the counter has passed, capped at 3 |
| `Clock.ScheduleStep` | drumseq_mi/src/main.cpp:296-303 | a counter that moves by at most one interval passes at most one `(phase + 1) * interval` boundary |
| `Clock.SilentRunOnSchedule` | drumseq_mi/src/main.cpp:293-304 | the schedule invariant holds over a whole silent run, with the counter advanced by the run's total |
| `Clock.MultiplierTicks` | drumseq_mi/src/main.cpp:283-306 | after an edge with a known period the edge block ticks and silent blocks add min(3, elapsed / (period / 4)) sub-ticks |
| `Clock.FirstEdgeNoTick` | drumseq_mi/src/main.cpp:259-284 | the first edge with no recorded edge latches external mode but gives no tick |
| `Clock.NoPeriodNoTicks` | drumseq_mi/src/main.cpp:284 | while no period is known, silent blocks never tick |
| `Clock.PeriodIsEdgeDistance` | drumseq_mi/src/main.cpp:259-267 | a second edge sets the period to the samples since the first one and ticks |
| `Clock.EdgeAtZeroSetsNoPeriod` | drumseq_mi/src/main.cpp:261-266 | an edge recorded at sample count 0 is ignored by the period guard, so the following edge sets no period and gives no tick |
| `Clock.DecayHold` | drumseq_mi/src/main.cpp:414-419 | a hold decreases by the block size, saturating at 0 |
| `Clock.DecayRunIsElapsed` | drumseq_mi/src/main.cpp:405-419 | over a run of blocks a hold is the arming value minus the samples elapsed, floored at 0, and it is high iff fewer samples than that have elapsed |
| `Clock.NextSubMode` | drumseq_mi/src/main.cpp:226-229 | the sub-mode steps (m + 1) mod 4 on a button edge only, so it stays in 0..3 |
| `Engine.EngineInit` | drumseq_mi/src/main.cpp:106-130 | the power-up globals satisfy the engine invariant |
| `Engine.Front` | drumseq_mi/src/main.cpp:211-280 | the front of a callback keeps the sub-mode in 0..3 and the step in 0..31 |
| `Engine.GridsMode` | drumseq_mi/src/main.cpp:342-379 | the pattern-mode branch keeps the generator's step in 0..31 |
| `Engine.Dispatcher` | drumseq_mi/src/main.cpp:313-403 | the sub-mode branch keeps the generator's step in 0..31 |
| `Engine.Block` | drumseq_mi/src/main.cpp:201-427 | one callback stores the gate levels read, steps the sub-mode, takes the output toggle and advances the external clock as `ExtClockStep` of the edges |
| `Engine.Strikes` | drumseq_mi/src/main.cpp:361-366 | a Grids part is struck iff triggered, at the strong level iff also accented, never at the edit level |
| `Engine.VoiceHits` | drumseq_mi/src/main.cpp:358-402 | nothing is struck in pattern mode without a tick or with external output, nor in an edit mode without an edit tick; an edit mode strikes only its own voice, at the edit level |
| `Engine.ArmHolds` | drumseq_mi/src/main.cpp:370-377 | no hold changes without a tick and external output; each hold either stays or becomes 480, and a triggered part's hold becomes 480 |
| `Engine.EditMode` | drumseq_mi/src/main.cpp:380-403 | an edit-mode block changes only the edit accumulator, never calls Grids, and strikes a voice only on an edit-clock tick |
| `Engine.GatesOf` | drumseq_mi/src/main.cpp:409-411 | all trigger outputs are low exactly when all three holds have run out |
| `Engine.DecayHolds` | drumseq_mi/src/main.cpp:413-419 | no hold grows, and all reach 0 exactly when none exceeds the block size |
| `Engine.Outputs` | drumseq_mi/src/main.cpp:405-427 | only the holds change and none grows; with internal output nothing changes and the outputs are low |
| `Engine.BlockKeepsInvariant` | drumseq_mi/src/main.cpp:201-427 | every callback keeps sub-mode, phase, holds, generator and latch within the engine invariant |
| `Engine.FrontKeepsInvariant` | drumseq_mi/src/main.cpp:211-280 | the front of a callback keeps the engine invariant: a reset leaves the generator valid and the external clock keeps period <= last edge <= sample counter |
| `Engine.DispatcherKeepsInvariant` | drumseq_mi/src/main.cpp:313-403 | the sub-mode branch keeps the engine invariant: a tick keeps the generator valid and a re-armed hold is 480 |
| `Engine.OutputsKeepInvariant` | drumseq_mi/src/main.cpp:405-427 | decaying the holds keeps them within 480 |
| `Engine.GridsDispatch` | drumseq_mi/src/main.cpp:345-356 | Grids is called only in pattern mode, once at most, with the block's knobs and one density for all three parts, after any reset |
| `Engine.ResetEdgeWins` | drumseq_mi/src/main.cpp:247-280 | a reset edge clears latch, period, last edge and phase and restarts Grids at step 0, even with a clock edge in the same block |
| `Engine.TickSelection` | drumseq_mi/src/main.cpp:342-345 | while latched the external tick drives Grids and the internal accumulator stands still; otherwise the internal accumulator decides; edit modes run only the edit clock |
| `Engine.VoicesStruck` | drumseq_mi/src/main.cpp:358-402 | with internal output every triggered part is struck at its strong level iff accented and at its normal level otherwise, every other part silent; external output strikes nothing in pattern mode; an edit mode strikes exactly its own voice, at the edit level, on an edit tick |
| `Engine.TriggerOutputs` | drumseq_mi/src/main.cpp:370-427 | with external output a triggered part is re-armed to 480, the output is high iff its hold is nonzero, and the holds then decay; with internal output the outputs are low |
| `Engine.Sequencer.constructor` | drumseq_mi/src/main.cpp:106-130 | every global starts at its initial value and Grids is initialised with the seed |
| `Engine.Sequencer.InternalGridsClockTick` | drumseq_mi/src/main.cpp:160-174 | the internal accumulator is updated and the tick reported as `AccumulatorTick` |
| `Engine.Sequencer.EditModeClockTick` | drumseq_mi/src/main.cpp:181-195 | the edit accumulator is updated and the tick reported as `AccumulatorTick` |
| `Engine.Sequencer.UpdateExtClock` | drumseq_mi/src/main.cpp:247-306 | the external-clock globals and the tick are those of `ExtClockStep` |
| `Engine.Sequencer.ReadInputs` | drumseq_mi/src/main.cpp:211-280 | each gate is read once and its stored level replaced before anything else; then sub-mode, toggle, reset and external clock, as `Front` |
| `Engine.Sequencer.LatchGates` | drumseq_mi/src/main.cpp:211-231 | each gate's rising edge is taken against its stored level, which is then replaced by the level read; the sub-mode steps on the button edge; the toggle is taken |
| `Engine.Sequencer.ResetOnEdge` | drumseq_mi/src/main.cpp:247-251 | a reset edge resets the generator to step 0 with no perturbation and leaves its LFSR alone |
| `Engine.Sequencer.RouteTriggers` | drumseq_mi/src/main.cpp:358-377 | with internal output the triggered parts strike their voices with the accent level; with external output they re-arm their holds to 480 |
| `Engine.Sequencer.GridsBranch` | drumseq_mi/src/main.cpp:342-379 | the pattern-mode branch, as `GridsMode` |
| `Engine.Sequencer.EditBranch` | drumseq_mi/src/main.cpp:380-403 | the edit-mode branch, as `EditMode` |
| `Engine.Sequencer.DispatchTick` | drumseq_mi/src/main.cpp:313-403 | the sub-mode branch, as `Dispatcher` |
| `Engine.Sequencer.UpdateTriggerOutputs` | drumseq_mi/src/main.cpp:405-427 | the gate outputs and the decayed holds, as `Outputs` |
| `Engine.Sequencer.ProcessBlock` | drumseq_mi/src/main.cpp:201-427 | one audio callback, as `Block`, keeping the engine invariant |

## Left out

- Audio rendering and the drum voices: the `kick`, `snare` and `hat` `Trig`/`Process` calls, pan and volume mixing, and `FastSaturate`. These are float DSP and library code. A trigger is modelled as an abstract `Hit` with a normal, strong or edit-mode strike level.
- Knob reading and the float-to-byte conversion (`Clamp01f`, `Clamp11f`, `k * 255.0f`). x, y, density and randomness are byte inputs.
- The float computation of `samples_per_tick` from the sample rate. The internal and edit thresholds are natural-number parameters of `Sequencer`.
- The edit-mode voice parameters (`SetFreq`, `SetDecay`, `SetSnappy`, pan and volume). They are float settings of the voices.
- LED pulsing (`LedPulseState`, `SetPanelLed`, `g_led_ctr`), `Switch::Debounce`, `ProcessAllControls`, GPIO and DAC writes, and hardware initialisation. These are I/O. The debounced button edge and the toggle level are inputs of `ProcessBlock`.
- The 32-bit wrap-around of `g_sample_counter`, `g_ext_clk_counter` and the other `uint32_t` counters. They are natural numbers, so the model covers the time before the first wrap. The `now > last_edge` guard is still modelled.
- The node bytes. `grids_nodes.cpp` is not part of this model, and every property holds for any 25 nodes of 96 bytes.
- The regular-expression scan and the file reading and writing of the node-table generator. The scan's matches are the input of `NodeExtract.ExtractNodes`.
- Lfsr.NextInjective: proves that the LFSR step is a permutation of the 16-bit states and never reaches 0 from a nonzero state. It does not prove the 65535-step period, because that needs an enumeration of every state.

## Notes on integer widths

`uint8_t` is the subtype `U8` (0..255). The 16-bit intermediate products and
sums of `U8Mix` and `U8U8MulShift8` are written with an explicit
`uint16_t` cast (`% 0x10000`), and their lemmas show that the cast never
changes the value. The LFSR state is a `bv16`, so its shifts and XOR are
exact.
