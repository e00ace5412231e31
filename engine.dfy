/** One audio callback of the drum sequencer, restricted to its integer
    state: gates, sub-mode, clocks, the Grids dispatch and the trigger holds.
    `Block` is the callback as a function of the previous globals and the
    block's inputs; `Sequencer.ProcessBlock` is the callback itself. */
module Engine {
  import opened FixedPoint
  import opened GridsNodes
  import opened Grids
  import opened Clock

  /** How strongly a drum voice is struck: the normal or strong accent level
      of a Grids trigger, or the fixed level of an edit-mode trigger. */
  datatype Strike = Normal | Strong | EditLevel

  /** A drum voice in one block: untouched, or triggered once. */
  datatype Hit = Silent | Hit(strike: Strike)

  /** The three synthetic voices: kick, snare, hi-hat. */
  datatype Voices = Voices(kick: Hit, snare: Hit, hat: Hit)

  const NoHits := Voices(Silent, Silent, Silent)

  /** `g_trig_kick_remaining`, `g_trig_snare_remaining`, `g_trig_hat_remaining`. */
  datatype Holds = Holds(kick: nat, snare: nat, hat: nat)

  /** The levels written to the kick, snare and hi-hat trigger outputs. */
  datatype Gates = Gates(kick: bool, snare: bool, hat: bool)

  const GatesLow := Gates(false, false, false)

  /** Whether `grids.Tick` was called in a block, and what it returned. */
  datatype Dispatch = NoTick | Ticked(step: GridsStep)

  /** What one block reads: its size, the two gate levels, the debounced
      mode-button edge, the output toggle, and the four knob bytes. */
  datatype BlockInput = BlockInput(size: nat, clkNow: bool, rstNow: bool, modeRising: bool,
                                   externalOutput: bool, x: U8, y: U8, dens: U8, rnd: U8)

  /** What one block produces. */
  datatype BlockOutput = BlockOutput(dispatch: Dispatch, voices: Voices, gates: Gates)

  /** Every global the integer logic of the callback keeps, with the Grids
      generator's state. */
  datatype EngineState = EngineState(clkState: bool, rstState: bool, ext: ExtClock,
                                     internalAcc: nat, editAcc: nat, holds: Holds,
                                     subMode: nat, externalOutput: bool, gen: GenState)

  /** The globals at power-up, after `grids.Init(seed)`. */
  function EngineInit(seed: bv16): (e: EngineState)
    ensures EngineInv(e)
  {
    var rng: bv16 := if seed != 0 then seed else 1;
    EngineState(false, false, ExtClockInit, 0, 0, Holds(0, 0, 0), 0, false, GenState(rng, 0, [0, 0, 0]))
  }

  /** What every block keeps true: the sub-mode is one of four, the
      multiplier phase at most 3, every hold at most 480 samples, the
      generator valid; external mode off means no period and no recorded
      edge, and the period never exceeds the time of the last edge, which
      never exceeds the sample counter. */
  predicate EngineInv(e: EngineState)
  {
    e.subMode < NumSubModes && e.ext.phase <= 3 &&
    e.holds.kick <= TriggerSamples && e.holds.snare <= TriggerSamples && e.holds.hat <= TriggerSamples &&
    ValidState(e.gen) &&
    (!e.ext.useExt ==> e.ext.period == 0 && e.ext.lastEdge == 0) &&
    e.ext.period <= e.ext.lastEdge <= e.ext.sampleCounter
  }

  /** The Grids call of a block: `grids.Tick(x, y, dens, dens, dens, rnd)`,
      the one density fanned out to all three parts. */
  function GridsCall(nodes: NodeTable, g: GenState, x: U8, y: U8, dens: U8, rnd: U8): (GenState, GridsStep)
    requires g.step < StepsPerCycle
  {
    TickFn(nodes, g, TickInput(x, y, dens, dens, dens, rnd))
  }

  /** A Grids trigger sent to a synthetic voice, with its accent level. */
  function Strikes(trig: bool, accent: bool): (h: Hit)
    ensures h == Silent <==> !trig
    ensures h == Hit(Strong) <==> trig && accent
    ensures h != Hit(EditLevel)
  {
    if trig then Hit(if accent then Strong else Normal) else Silent
  }

  /** The voices struck in a block: the triggered Grids parts when the output
      is internal, or in an edit mode the edited voice on an edit tick. */
  function VoiceHits(mode: nat, d: Dispatch, externalOutput: bool, editTick: bool): (v: Voices)
    ensures mode == 0 && (externalOutput || d.NoTick?) ==> v == NoHits
    ensures mode != 0 && !editTick ==> v == NoHits
    ensures mode != 0 ==> (v.kick != Silent ==> mode == 1 && v.kick == Hit(EditLevel)) &&
                          (v.snare != Silent ==> mode == 2 && v.snare == Hit(EditLevel)) &&
                          (v.hat != Silent ==> mode == 3 && v.hat == Hit(EditLevel))
  {
    if mode == 0 then
      if d.Ticked? && !externalOutput then
        Voices(Strikes(d.step.bd, d.step.bdAccent), Strikes(d.step.sd, d.step.sdAccent),
               Strikes(d.step.hh, d.step.hhAccent))
      else NoHits
    else if editTick then
      Voices(if mode == 1 then Hit(EditLevel) else Silent,
             if mode == 2 then Hit(EditLevel) else Silent,
             if mode == 3 then Hit(EditLevel) else Silent)
    else NoHits
  }

  /** With external output, a triggered part re-arms its hold to 480 samples. */
  function ArmHolds(h: Holds, d: Dispatch, externalOutput: bool): (r: Holds)
    ensures !externalOutput || d.NoTick? ==> r == h
    ensures r.kick == h.kick || r.kick == TriggerSamples
    ensures r.snare == h.snare || r.snare == TriggerSamples
    ensures r.hat == h.hat || r.hat == TriggerSamples
    ensures d.Ticked? && externalOutput ==>
              (d.step.bd ==> r.kick == TriggerSamples) && (d.step.sd ==> r.snare == TriggerSamples) &&
              (d.step.hh ==> r.hat == TriggerSamples)
  {
    if d.Ticked? && externalOutput then
      Holds(if d.step.bd then TriggerSamples else h.kick,
            if d.step.sd then TriggerSamples else h.snare,
            if d.step.hh then TriggerSamples else h.hat)
    else h
  }

  /** A trigger output is high exactly while its hold is nonzero. */
  function GatesOf(h: Holds): (g: Gates)
    ensures g == GatesLow <==> h == Holds(0, 0, 0)
  {
    Gates(h.kick > 0, h.snare > 0, h.hat > 0)
  }

  /** Each hold runs down by the block size, saturating at 0. */
  function DecayHolds(h: Holds, size: nat): (r: Holds)
    ensures r.kick <= h.kick && r.snare <= h.snare && r.hat <= h.hat
    ensures r == Holds(0, 0, 0) <==> h.kick <= size && h.snare <= size && h.hat <= size
  {
    Holds(DecayHold(h.kick, size), DecayHold(h.snare, size), DecayHold(h.hat, size))
  }

  /** The front of a callback: both gates read once and their stored levels
      replaced, the sub-mode stepped on the button edge, the output toggle
      taken, Grids reset on a reset edge, and the external clock advanced
      (in every sub-mode). Also returns whether the external clock ticks. */
  function Front(e: EngineState, size: nat, clkNow: bool, rstNow: bool, modeRising: bool, externalOutput: bool)
    : (r: (EngineState, bool))
    requires e.subMode < NumSubModes
    ensures r.0.subMode < NumSubModes
    ensures e.gen.step < StepsPerCycle ==> r.0.gen.step < StepsPerCycle
  {
    var clkRising := RisingEdge(clkNow, e.clkState);
    var rstRising := RisingEdge(rstNow, e.rstState);
    var (ext, extTick) := ExtClockStep(e.ext, size, clkRising, rstRising);
    (e.(clkState := clkNow, rstState := rstNow, subMode := NextSubMode(e.subMode, modeRising),
        externalOutput := externalOutput, gen := if rstRising then ResetState(e.gen) else e.gen, ext := ext),
     extTick)
  }

  /** Sub-mode 0: the Grids clock is the external clock once one is latched,
      else the internal accumulator; on its tick Grids is called once and its
      triggers strike the voices (internal output) or re-arm the holds
      (external output). The edit accumulator stands still. */
  function GridsMode(nodes: NodeTable, internalSpt: nat, f: EngineState, extTick: bool,
                     size: nat, x: U8, y: U8, dens: U8, rnd: U8): (r: (EngineState, Dispatch, Voices))
    requires f.gen.step < StepsPerCycle
    ensures r.0.gen.step < StepsPerCycle
  {
    var (acc, tick) := if f.ext.useExt then (f.internalAcc, extTick) else AccumulatorTick(f.internalAcc, size, internalSpt);
    if tick then
      var (g, st) := GridsCall(nodes, f.gen, x, y, dens, rnd);
      var d := Ticked(st);
      (f.(internalAcc := acc, gen := g, holds := ArmHolds(f.holds, d, f.externalOutput)),
       d, VoiceHits(0, d, f.externalOutput, false))
    else (f.(internalAcc := acc), NoTick, NoHits)
  }

  /** Sub-modes 1-3: only the edit accumulator runs, and its tick strikes the
      edited voice; Grids, the internal accumulator and the holds stand still. */
  function EditMode(editSpt: nat, f: EngineState, size: nat): (r: (EngineState, Dispatch, Voices))
    ensures r.0 == f.(editAcc := r.0.editAcc) && r.1 == NoTick
    ensures r.2 != NoHits ==> AccumulatorTick(f.editAcc, size, editSpt).1
  {
    var (acc, tick) := AccumulatorTick(f.editAcc, size, editSpt);
    (f.(editAcc := acc), NoTick, VoiceHits(f.subMode, NoTick, f.externalOutput, tick))
  }

  /** The sub-mode branch of a callback. */
  function Dispatcher(nodes: NodeTable, internalSpt: nat, editSpt: nat, f: EngineState, extTick: bool,
                      size: nat, x: U8, y: U8, dens: U8, rnd: U8): (r: (EngineState, Dispatch, Voices))
    requires f.gen.step < StepsPerCycle
    ensures r.0.gen.step < StepsPerCycle
  {
    if f.subMode == 0 then GridsMode(nodes, internalSpt, f, extTick, size, x, y, dens, rnd)
    else EditMode(editSpt, f, size)
  }

  /** The end of a callback: with external output the trigger outputs show
      which holds are nonzero and the holds then run down by the block size;
      with internal output the outputs are low and the holds stand still. */
  function Outputs(g: EngineState, size: nat): (r: (EngineState, Gates))
    ensures r.0 == g.(holds := r.0.holds)
    ensures !g.externalOutput ==> r == (g, GatesLow)
    ensures r.0.holds.kick <= g.holds.kick && r.0.holds.snare <= g.holds.snare && r.0.holds.hat <= g.holds.hat
  {
    if g.externalOutput then (g.(holds := DecayHolds(g.holds, size)), GatesOf(g.holds))
    else (g, GatesLow)
  }

  /** One audio callback: `Front`, then `Dispatcher`, then `Outputs`. */
  function Block(nodes: NodeTable, internalSpt: nat, editSpt: nat, e: EngineState, inp: BlockInput)
    : (r: (EngineState, BlockOutput))
    requires e.subMode < NumSubModes && e.gen.step < StepsPerCycle
    ensures r.0.clkState == inp.clkNow && r.0.rstState == inp.rstNow
    ensures r.0.subMode == NextSubMode(e.subMode, inp.modeRising) && r.0.externalOutput == inp.externalOutput
    ensures r.0.ext == ExtClockStep(e.ext, inp.size, RisingEdge(inp.clkNow, e.clkState), RisingEdge(inp.rstNow, e.rstState)).0
    ensures r.0.gen.step < StepsPerCycle
  {
    var (f, extTick) := Front(e, inp.size, inp.clkNow, inp.rstNow, inp.modeRising, inp.externalOutput);
    var (g, d, v) := Dispatcher(nodes, internalSpt, editSpt, f, extTick, inp.size, inp.x, inp.y, inp.dens, inp.rnd);
    var (h, gates) := Outputs(g, inp.size);
    (h, BlockOutput(d, v, gates))
  }

  /** The state a reset edge leaves Grids in before this block's tick. */
  function GenBeforeTick(e: EngineState, inp: BlockInput): GenState
  {
    if RisingEdge(inp.rstNow, e.rstState) then ResetState(e.gen) else e.gen
  }

  /** Every block keeps `EngineInv`; it holds from power-up on. */
  lemma BlockKeepsInvariant(nodes: NodeTable, internalSpt: nat, editSpt: nat, e: EngineState, inp: BlockInput)
    requires EngineInv(e)
    ensures EngineInv(Block(nodes, internalSpt, editSpt, e, inp).0)
  {
    var (f, extTick) := Front(e, inp.size, inp.clkNow, inp.rstNow, inp.modeRising, inp.externalOutput);
    FrontKeepsInvariant(e, inp.size, inp.clkNow, inp.rstNow, inp.modeRising, inp.externalOutput);
    var (g, _, _) := Dispatcher(nodes, internalSpt, editSpt, f, extTick, inp.size, inp.x, inp.y, inp.dens, inp.rnd);
    DispatcherKeepsInvariant(nodes, internalSpt, editSpt, f, extTick, inp.size, inp.x, inp.y, inp.dens, inp.rnd);
    OutputsKeepInvariant(g, inp.size);
  }

  /** The front of a callback keeps the invariant: a reset edge leaves a valid
      generator valid, and the external clock keeps period <= last edge <=
      sample counter, with no period and no edge while unlatched. */
  lemma FrontKeepsInvariant(e: EngineState, size: nat, clkNow: bool, rstNow: bool, modeRising: bool, externalOutput: bool)
    requires EngineInv(e)
    ensures EngineInv(Front(e, size, clkNow, rstNow, modeRising, externalOutput).0)
  {
    var clkRising, rstRising := RisingEdge(clkNow, e.clkState), RisingEdge(rstNow, e.rstState);
    var ext := ExtClockStep(e.ext, size, clkRising, rstRising).0;
    assert ext.period <= ext.lastEdge <= ext.sampleCounter;
    assert ValidState(if rstRising then ResetState(e.gen) else e.gen);
  }

  /** The sub-mode branch keeps the invariant: a Grids tick keeps the
      generator valid and a re-armed hold is exactly 480 samples. */
  lemma DispatcherKeepsInvariant(nodes: NodeTable, internalSpt: nat, editSpt: nat, f: EngineState, extTick: bool,
                                 size: nat, x: U8, y: U8, dens: U8, rnd: U8)
    requires EngineInv(f)
    ensures EngineInv(Dispatcher(nodes, internalSpt, editSpt, f, extTick, size, x, y, dens, rnd).0)
  {
    if f.subMode == 0 {
      var (acc, tick) := if f.ext.useExt then (f.internalAcc, extTick) else AccumulatorTick(f.internalAcc, size, internalSpt);
      if tick {
        assert ValidState(NextState(f.gen, rnd));
      }
    }
  }

  /** Decaying the holds never raises them, so the invariant survives. */
  lemma OutputsKeepInvariant(g: EngineState, size: nat)
    requires EngineInv(g)
    ensures EngineInv(Outputs(g, size).0)
  {
  }

  /** Grids is called only in pattern mode, at most once per block, with the
      block's knobs and the one density for all three parts, after any reset;
      a block that does not call it leaves it as the reset (if any) left it. */
  lemma GridsDispatch(nodes: NodeTable, internalSpt: nat, editSpt: nat, e: EngineState, inp: BlockInput)
    requires e.subMode < NumSubModes && e.gen.step < StepsPerCycle
    ensures var (r, out) := Block(nodes, internalSpt, editSpt, e, inp);
            (out.dispatch.Ticked? ==>
               r.subMode == 0 && (r.gen, out.dispatch.step) == GridsCall(nodes, GenBeforeTick(e, inp), inp.x, inp.y, inp.dens, inp.rnd)) &&
            (out.dispatch.NoTick? ==> r.gen == GenBeforeTick(e, inp))
  {
  }

  /** A reset edge wins over everything else in its block: external mode,
      period and last edge are cleared, and Grids restarts from step 0, so a
      tick in that block (from the internal clock, the only one that can
      still fire) plays step 0 with no perturbation left from before. */
  lemma ResetEdgeWins(nodes: NodeTable, internalSpt: nat, editSpt: nat, e: EngineState, inp: BlockInput)
    requires e.subMode < NumSubModes && e.gen.step < StepsPerCycle
    requires RisingEdge(inp.rstNow, e.rstState)
    ensures var (r, out) := Block(nodes, internalSpt, editSpt, e, inp);
            !r.ext.useExt && r.ext.period == 0 && r.ext.lastEdge == 0 && r.ext.phase == 0 &&
            GenBeforeTick(e, inp) == GenState(e.gen.rng, 0, [0, 0, 0]) &&
            (out.dispatch.Ticked? ==> r.internalAcc + internalSpt == e.internalAcc + inp.size)
  {
  }

  /** Which clock drives Grids. In pattern mode it is the external clock
      while latched, leaving the internal accumulator untouched, and the
      internal accumulator otherwise; the edit clock is not advanced. In an
      edit mode Grids is not called and only the edit clock runs. */
  lemma TickSelection(nodes: NodeTable, internalSpt: nat, editSpt: nat, e: EngineState, inp: BlockInput)
    requires e.subMode < NumSubModes && e.gen.step < StepsPerCycle
    ensures var (r, out) := Block(nodes, internalSpt, editSpt, e, inp);
            var ext := ExtClockStep(e.ext, inp.size, RisingEdge(inp.clkNow, e.clkState), RisingEdge(inp.rstNow, e.rstState));
            (r.subMode == 0 && ext.0.useExt ==>
               r.internalAcc == e.internalAcc && (out.dispatch.Ticked? <==> ext.1)) &&
            (r.subMode == 0 && !ext.0.useExt ==>
               (r.internalAcc, out.dispatch.Ticked?) == AccumulatorTick(e.internalAcc, inp.size, internalSpt)) &&
            (r.subMode == 0 ==> r.editAcc == e.editAcc) &&
            (r.subMode != 0 ==>
               out.dispatch.NoTick? && r.internalAcc == e.internalAcc &&
               r.editAcc == AccumulatorTick(e.editAcc, inp.size, editSpt).0)
  {
  }

  /** The drum voices a block strikes: with internal output, each triggered
      Grids part at its strong or normal accent level and every other part
      silent; with external output none in pattern mode; in an edit mode the
      edited voice alone, at the edit level, exactly on an edit-clock tick,
      whatever the output toggle says. */
  lemma VoicesStruck(nodes: NodeTable, internalSpt: nat, editSpt: nat, e: EngineState, inp: BlockInput)
    requires e.subMode < NumSubModes && e.gen.step < StepsPerCycle
    ensures var (r, out) := Block(nodes, internalSpt, editSpt, e, inp);
            (r.subMode == 0 && inp.externalOutput ==> out.voices == NoHits) &&
            (r.subMode == 0 && !inp.externalOutput && out.dispatch.Ticked? ==>
               var st := out.dispatch.step;
               out.voices == Voices(Strikes(st.bd, st.bdAccent), Strikes(st.sd, st.sdAccent),
                                    Strikes(st.hh, st.hhAccent)) &&
               (out.voices.kick == Hit(Strong) <==> st.bdAccent) &&
               (out.voices.snare == Hit(Strong) <==> st.sdAccent) &&
               (out.voices.hat == Hit(Strong) <==> st.hhAccent) &&
               (out.voices.kick == Hit(Normal) <==> st.bd && !st.bdAccent) &&
               (out.voices.snare == Hit(Normal) <==> st.sd && !st.sdAccent) &&
               (out.voices.hat == Hit(Normal) <==> st.hh && !st.hhAccent)) &&
            (out.dispatch.NoTick? && r.subMode == 0 ==> out.voices == NoHits) &&
            (r.subMode != 0 ==>
               var tick := AccumulatorTick(e.editAcc, inp.size, editSpt).1;
               out.voices == Voices(if tick && r.subMode == 1 then Hit(EditLevel) else Silent,
                                    if tick && r.subMode == 2 then Hit(EditLevel) else Silent,
                                    if tick && r.subMode == 3 then Hit(EditLevel) else Silent))
  {
    var (r, out) := Block(nodes, internalSpt, editSpt, e, inp);
    if out.dispatch.Ticked? {
      GridsDispatch(nodes, internalSpt, editSpt, e, inp);
      var g := GenBeforeTick(e, inp);
      StepOutcomeParts(nodes, NextState(g, inp.rnd).perturb, g.step, TickInput(inp.x, inp.y, inp.dens, inp.dens, inp.dens, inp.rnd));
    }
  }

  /** The trigger outputs. With internal output they are low and the holds
      stand still; with external output a part Grids triggers this block is
      re-armed to 480 samples, every output reads high exactly while its
      hold is nonzero, and the holds then run down by the block size. */
  lemma TriggerOutputs(nodes: NodeTable, internalSpt: nat, editSpt: nat, e: EngineState, inp: BlockInput)
    requires e.subMode < NumSubModes && e.gen.step < StepsPerCycle
    ensures var (r, out) := Block(nodes, internalSpt, editSpt, e, inp);
            var armed := ArmHolds(e.holds, out.dispatch, inp.externalOutput);
            (!inp.externalOutput ==> out.gates == GatesLow && r.holds == e.holds) &&
            (inp.externalOutput ==>
               out.gates == GatesOf(armed) && r.holds == DecayHolds(armed, inp.size) &&
               (out.dispatch.Ticked? && out.dispatch.step.bd ==> out.gates.kick && armed.kick == TriggerSamples) &&
               (out.dispatch.Ticked? && out.dispatch.step.sd ==> out.gates.snare && armed.snare == TriggerSamples) &&
               (out.dispatch.Ticked? && out.dispatch.step.hh ==> out.gates.hat && armed.hat == TriggerSamples) &&
               (out.dispatch.NoTick? ==> armed == e.holds))
  {
  }

  /** The callback's globals, with the Grids generator they drive. The two
      `samples_per_tick` values are fixed by the sample rate and are taken
      as given. */
  class Sequencer {
    const grids: GridsDrumGenerator
    const internalSpt: nat
    const editSpt: nat
    var extClkState: bool
    var extRstState: bool
    var useExtClock: bool
    var extClkPeriod: nat
    var extClkLastEdge: nat
    var extClkCounter: nat
    var extClkMultPhase: nat
    var sampleCounter: nat
    var internalClkSamples: nat
    var editClkSamples: nat
    var trigKickRemaining: nat
    var trigSnareRemaining: nat
    var trigHatRemaining: nat
    var subMode: nat
    var externalOutput: bool

    /** The external-clock globals as an `ExtClock`. */
    function ExtView(): ExtClock
      reads this
    {
      ExtClock(useExtClock, extClkPeriod, extClkLastEdge, extClkCounter, extClkMultPhase, sampleCounter)
    }

    /** All globals as an `EngineState`. */
    function View(): EngineState
      reads this, grids, grids.perturb
      requires grids.perturb.Length == 3
    {
      EngineState(extClkState, extRstState, ExtView(), internalClkSamples, editClkSamples,
                  Holds(trigKickRemaining, trigSnareRemaining, trigHatRemaining),
                  subMode, externalOutput, grids.State())
    }

    ghost predicate Valid()
      reads this, grids, grids.perturb
    {
      grids.Valid() && EngineInv(View())
    }

    /** Power-up: every global at its initial value, then `grids.Init(seed)`. */
    constructor (nodes: NodeTable, seed: bv16, internalSpt: nat, editSpt: nat)
      ensures Valid() && fresh(grids) && fresh(grids.perturb)
      ensures grids.nodes == nodes && this.internalSpt == internalSpt && this.editSpt == editSpt
      ensures View() == EngineInit(seed)
    {
      var g := new GridsDrumGenerator(nodes);
      g.Init(seed);
      grids := g;
      this.internalSpt := internalSpt;
      this.editSpt := editSpt;
      extClkState, extRstState, useExtClock := false, false, false;
      extClkPeriod, extClkLastEdge, extClkCounter, extClkMultPhase, sampleCounter := 0, 0, 0, 0, 0;
      internalClkSamples, editClkSamples := 0, 0;
      trigKickRemaining, trigSnareRemaining, trigHatRemaining := 0, 0, 0;
      subMode, externalOutput := 0, false;
    }

    /** `InternalGridsClockTick(sr, size)`. */
    method InternalGridsClockTick(blockSize: nat) returns (tick: bool)
      modifies this`internalClkSamples
      ensures (internalClkSamples, tick) == AccumulatorTick(old(internalClkSamples), blockSize, internalSpt)
    {
      internalClkSamples := internalClkSamples + blockSize;
      if internalClkSamples >= internalSpt {
        internalClkSamples := internalClkSamples - internalSpt;
        return true;
      }
      return false;
    }

    /** `EditModeClockTick(sr, size)`. */
    method EditModeClockTick(blockSize: nat) returns (tick: bool)
      modifies this`editClkSamples
      ensures (editClkSamples, tick) == AccumulatorTick(old(editClkSamples), blockSize, editSpt)
    {
      editClkSamples := editClkSamples + blockSize;
      if editClkSamples >= editSpt {
        editClkSamples := editClkSamples - editSpt;
        return true;
      }
      return false;
    }

    /** The external-clock part of the callback: the multiplier phase cleared
        by a reset edge, the sample counter, the edge handling, the reset
        handling, and the x4 multiplier. */
    method UpdateExtClock(size: nat, clkRising: bool, rstRising: bool) returns (extTick: bool)
      modifies this`useExtClock, this`extClkPeriod, this`extClkLastEdge, this`extClkCounter,
               this`extClkMultPhase, this`sampleCounter
      ensures (ExtView(), extTick) == ExtClockStep(old(ExtView()), size, clkRising, rstRising)
    {
      if rstRising {
        extClkMultPhase := 0;
      }
      sampleCounter := sampleCounter + size;
      if clkRising {
        var now := sampleCounter;
        if extClkLastEdge > 0 && now > extClkLastEdge {
          extClkPeriod := now - extClkLastEdge;
        }
        extClkLastEdge := now;
        extClkCounter := 0;
        extClkMultPhase := 0;
        useExtClock := true;
      }
      if rstRising {
        useExtClock := false;
        extClkPeriod := 0;
        extClkLastEdge := 0;
      }
      extTick := false;
      if useExtClock && extClkPeriod > 0 {
        if clkRising {
          extTick := true;
        } else {
          extClkCounter := extClkCounter + size;
          var tickInterval := extClkPeriod / ClockMultiplier;
          if tickInterval > 0 && extClkMultPhase < ClockMultiplier - 1 {
            var nextTickAt := (extClkMultPhase + 1) * tickInterval;
            if extClkCounter >= nextTickAt {
              extTick := true;
              extClkMultPhase := extClkMultPhase + 1;
            }
          }
        }
      }
    }

    /** Driving and decaying the trigger outputs at the end of the callback. */
    method UpdateTriggerOutputs(size: nat) returns (gates: Gates)
      requires grids.perturb.Length == 3
      modifies this`trigKickRemaining, this`trigSnareRemaining, this`trigHatRemaining
      ensures (View(), gates) == Outputs(old(View()), size)
    {
      if externalOutput {
        gates := Gates(trigKickRemaining > 0, trigSnareRemaining > 0, trigHatRemaining > 0);
        if trigKickRemaining > 0 {
          trigKickRemaining := if trigKickRemaining > size then trigKickRemaining - size else 0;
        }
        if trigSnareRemaining > 0 {
          trigSnareRemaining := if trigSnareRemaining > size then trigSnareRemaining - size else 0;
        }
        if trigHatRemaining > 0 {
          trigHatRemaining := if trigHatRemaining > size then trigHatRemaining - size else 0;
        }
      } else {
        gates := GatesLow;
      }
    }

    /** The sub-mode branch of the callback: in pattern mode the selected
        clock may call Grids, whose triggers strike the voices or re-arm the
        holds; in an edit mode the edit clock may strike the edited voice. */
    method DispatchTick(size: nat, extTick: bool, x: U8, y: U8, dens: U8, rnd: U8)
      returns (dispatch: Dispatch, voices: Voices)
      requires grids.Valid()
      modifies this`internalClkSamples, this`editClkSamples,
               this`trigKickRemaining, this`trigSnareRemaining, this`trigHatRemaining,
               grids, grids.perturb
      ensures grids.Valid()
      ensures (View(), dispatch, voices) ==
              Dispatcher(grids.nodes, internalSpt, editSpt, old(View()), extTick, size, x, y, dens, rnd)
    {
      if subMode == 0 {
        dispatch, voices := GridsBranch(size, extTick, x, y, dens, rnd);
      } else {
        dispatch, voices := EditBranch(size);
      }
    }

    /** Sub-mode 0 of the callback, as `GridsMode`. */
    method GridsBranch(size: nat, extTick: bool, x: U8, y: U8, dens: U8, rnd: U8)
      returns (dispatch: Dispatch, voices: Voices)
      requires grids.Valid()
      modifies this`internalClkSamples, this`trigKickRemaining, this`trigSnareRemaining, this`trigHatRemaining,
               grids, grids.perturb
      ensures grids.Valid()
      ensures (View(), dispatch, voices) ==
              GridsMode(grids.nodes, internalSpt, old(View()), extTick, size, x, y, dens, rnd)
    {
      dispatch := NoTick;
      voices := NoHits;
      var tick := extTick;
      if !useExtClock {
        tick := InternalGridsClockTick(size);
      }
      if tick {
        var step := grids.Tick(x, y, dens, dens, dens, rnd);
        dispatch := Ticked(step);
        voices := RouteTriggers(step);
      }
    }

    /** Where a Grids result goes: with internal output each triggered part
        strikes its voice with its accent level; with external output each
        triggered part re-arms its hold to 480 samples. */
    method RouteTriggers(step: GridsStep) returns (voices: Voices)
      modifies this`trigKickRemaining, this`trigSnareRemaining, this`trigHatRemaining
      ensures Holds(trigKickRemaining, trigSnareRemaining, trigHatRemaining) ==
              ArmHolds(old(Holds(trigKickRemaining, trigSnareRemaining, trigHatRemaining)), Ticked(step), externalOutput)
      ensures voices == VoiceHits(0, Ticked(step), externalOutput, false)
    {
      voices := NoHits;
      if !externalOutput {
        voices := Voices(Strikes(step.bd, step.bdAccent), Strikes(step.sd, step.sdAccent),
                         Strikes(step.hh, step.hhAccent));
      } else {
        if step.bd {
          trigKickRemaining := TriggerSamples;
        }
        if step.sd {
          trigSnareRemaining := TriggerSamples;
        }
        if step.hh {
          trigHatRemaining := TriggerSamples;
        }
      }
    }

    /** Sub-modes 1-3 of the callback, as `EditMode`. */
    method EditBranch(size: nat) returns (dispatch: Dispatch, voices: Voices)
      requires grids.perturb.Length == 3
      modifies this`editClkSamples
      ensures (View(), dispatch, voices) == EditMode(editSpt, old(View()), size)
    {
      dispatch := NoTick;
      voices := NoHits;
      var editTick := EditModeClockTick(size);
      if editTick {
        if subMode == 1 {
          voices := Voices(Hit(EditLevel), Silent, Silent);
        } else if subMode == 2 {
          voices := Voices(Silent, Hit(EditLevel), Silent);
        } else if subMode == 3 {
          voices := Voices(Silent, Silent, Hit(EditLevel));
        }
      }
    }

    /** The front of the callback: read both gates once and store their
        levels, step the sub-mode on the button edge, take the output toggle,
        reset Grids on a reset edge, and advance the external clock. */
    method ReadInputs(size: nat, clkNow: bool, rstNow: bool, subModeButtonRising: bool, externalOutputNow: bool)
      returns (extTick: bool)
      requires grids.Valid() && subMode < NumSubModes
      modifies this`extClkState, this`extRstState, this`subMode, this`externalOutput,
               this`useExtClock, this`extClkPeriod, this`extClkLastEdge, this`extClkCounter,
               this`extClkMultPhase, this`sampleCounter, grids`currentStep, grids.perturb
      ensures grids.Valid()
      ensures (View(), extTick) == Front(old(View()), size, clkNow, rstNow, subModeButtonRising, externalOutputNow)
    {
      ghost var e := View();
      var clkRising, rstRising := LatchGates(clkNow, rstNow, subModeButtonRising, externalOutputNow);
      ResetOnEdge(rstRising);
      extTick := UpdateExtClock(size, clkRising, rstRising);
      assert View().gen == if rstRising then ResetState(e.gen) else e.gen;
    }

    /** A reset edge resets the generator: step 0, no perturbation. */
    method ResetOnEdge(rstRising: bool)
      requires grids.Valid()
      modifies grids`currentStep, grids.perturb
      ensures grids.Valid()
      ensures grids.State() == if rstRising then ResetState(old(grids.State())) else old(grids.State())
    {
      if rstRising {
        grids.Reset();
      }
    }

    /** The first thing a callback does: each gate is read once, its rising
        edge taken against the stored level, and the stored level replaced;
        then the sub-mode steps on the button edge and the output toggle is
        taken. */
    method LatchGates(clkNow: bool, rstNow: bool, subModeButtonRising: bool, externalOutputNow: bool)
      returns (clkRising: bool, rstRising: bool)
      requires subMode < NumSubModes
      modifies this`extClkState, this`extRstState, this`subMode, this`externalOutput
      ensures clkRising == RisingEdge(clkNow, old(extClkState))
      ensures rstRising == RisingEdge(rstNow, old(extRstState))
      ensures extClkState == clkNow && extRstState == rstNow
      ensures subMode == NextSubMode(old(subMode), subModeButtonRising)
      ensures externalOutput == externalOutputNow
    {
      clkRising := clkNow && !extClkState;
      rstRising := rstNow && !extRstState;
      extClkState := clkNow;
      extRstState := rstNow;
      if subModeButtonRising {
        subMode := (subMode + 1) % NumSubModes;
      }
      externalOutput := externalOutputNow;
    }

    /** One audio callback: as `Block` on the globals. */
    method ProcessBlock(size: nat, clkNow: bool, rstNow: bool, subModeButtonRising: bool,
                        externalOutputNow: bool, x: U8, y: U8, dens: U8, rnd: U8)
      returns (out: BlockOutput)
      requires Valid()
      modifies this, grids, grids.perturb
      ensures Valid()
      ensures (View(), out) == Block(grids.nodes, internalSpt, editSpt, old(View()),
                                     BlockInput(size, clkNow, rstNow, subModeButtonRising,
                                                externalOutputNow, x, y, dens, rnd))
    {
      ghost var e := View();
      ghost var inp := BlockInput(size, clkNow, rstNow, subModeButtonRising, externalOutputNow, x, y, dens, rnd);
      var extTick := ReadInputs(size, clkNow, rstNow, subModeButtonRising, externalOutputNow);
      var dispatch, voices := DispatchTick(size, extTick, x, y, dens, rnd);
      var gates := UpdateTriggerOutputs(size);
      out := BlockOutput(dispatch, voices, gates);
      BlockKeepsInvariant(grids.nodes, internalSpt, editSpt, e, inp);
    }
  }
}
