/** The Grids drum pattern generator: an interpolated lookup in the 5 x 5 map
    of nodes, perturbed once per 32-step cycle by the LFSR, and compared
    against an inverted density threshold per part (bass drum, snare, hi-hat). */
module Grids {
  import opened FixedPoint
  import Lfsr
  import opened GridsNodes

  /** The outcome of one tick: a trigger and an accent flag per part. */
  datatype GridsStep = GridsStep(bd: bool, sd: bool, hh: bool,
                                 bdAccent: bool, sdAccent: bool, hhAccent: bool)

  /** Trigger flag of part 0 (bd), 1 (sd) or 2 (hh). */
  function Trig(s: GridsStep, part: nat): bool
    requires part < 3
  {
    if part == 0 then s.bd else if part == 1 then s.sd else s.hh
  }

  /** Accent flag of part 0 (bd), 1 (sd) or 2 (hh). */
  function Accent(s: GridsStep, part: nat): bool
    requires part < 3
  {
    if part == 0 then s.bdAccent else if part == 1 then s.sdAccent else s.hhAccent
  }

  /** The three per-part perturbation bytes. */
  type Perturbation = p: seq<U8> | |p| == 3 witness [0, 0, 0]

  /** The generator's private state: `rng_state_`, `step_`, `perturb_`. */
  datatype GenState = GenState(rng: bv16, step: U8, perturb: Perturbation)

  /** The state invariant: the LFSR is never zero and the step is in 0..31. */
  predicate ValidState(g: GenState)
  {
    g.rng != 0 && g.step < StepsPerCycle
  }

  /** `Reset`: back to step 0 with no perturbation; the LFSR keeps running. */
  function ResetState(g: GenState): (r: GenState)
    ensures r.rng == g.rng && r.step == 0 && r.perturb == [0, 0, 0]
    ensures ValidState(r) <==> g.rng != 0
  {
    GenState(g.rng, 0, [0, 0, 0])
  }

  /** The level stored for `instrument` at `step` in node cell (i, j) of the map. */
  function CornerLevel(nodes: NodeTable, i: nat, j: nat, instrument: nat, step: nat): U8
    requires i < MapSide && j < MapSide && instrument < Instruments && step < StepsPerCycle
  {
    nodes[MapNode(i, j)][NodeOffset(instrument, step)]
  }

  /** The interpolated level of `instrument` at `step` for map position (x, y).
      The top two bits of each coordinate pick a cell (0..3, so the cell and
      its right and lower neighbours all lie in the 5 x 5 map, and the offset
      `instrument * 32 + step` lies in the node); the low six bits, shifted
      left by 2, weight a crossfade along x, then along y. Two truncating
      crossfades keep the level at most 253. */
  function ReadDrumMap(nodes: NodeTable, step: U8, instrument: U8, x: U8, y: U8): (r: U8)
    requires step < StepsPerCycle && instrument < Instruments
    ensures r <= 253
  {
    var i := x / 64;
    var j := y / 64;
    var offset := ToU8(instrument * 32 + step);
    assert offset == NodeOffset(instrument, step);
    var a := nodes[DrumMap[i][j]][offset];
    var b := nodes[DrumMap[i + 1][j]][offset];
    var c := nodes[DrumMap[i][j + 1]][offset];
    var d := nodes[DrumMap[i + 1][j + 1]][offset];
    Interpolate(a, b, c, d, ShiftLeft2(x), ShiftLeft2(y))
  }

  /** The two-stage crossfade: along x within the top and the bottom row, then
      along y between the two. */
  function Interpolate(a: U8, b: U8, c: U8, d: U8, wx: U8, wy: U8): (r: U8)
    ensures r <= Max(Max(a, b), Max(c, d)) && r <= 253
    ensures Min(Min(a, b), Min(c, d)) <= r + 2
    ensures wx == 0 && wy == 0 ==> r == Max(a - 2, 0)
  {
    var top := U8Mix(a, b, wx);
    var bottom := U8Mix(c, d, wx);
    assert top < 255 && bottom < 255;
    U8Mix(top, bottom, wy)
  }

  /** The level read for (x, y) lies between the smallest corner level of its
      cell minus 2 and the largest corner level; exactly on a grid point
      (both low six bits zero) it is the corner level minus 2, floored at 0,
      rather than the corner level itself. */
  lemma ReadDrumMapBounds(nodes: NodeTable, step: U8, instrument: U8, x: U8, y: U8)
    requires step < StepsPerCycle && instrument < Instruments
    ensures var i, j := x / 64, y / 64;
            var a, b := CornerLevel(nodes, i, j, instrument, step), CornerLevel(nodes, i + 1, j, instrument, step);
            var c, d := CornerLevel(nodes, i, j + 1, instrument, step), CornerLevel(nodes, i + 1, j + 1, instrument, step);
            var r := ReadDrumMap(nodes, step, instrument, x, y);
            r <= Max(Max(a, b), Max(c, d)) && Min(Min(a, b), Min(c, d)) <= r + 2 &&
            (x % 64 == 0 && y % 64 == 0 ==> r == Max(a - 2, 0))
  {
    var offset := ToU8(instrument * 32 + step);
    assert offset == NodeOffset(instrument, step);
  }

  /** The perturbation byte drawn from LFSR output `rnd`: at most
      `randomness >> 2` (so at most 62), and 0 whenever randomness < 4. */
  function PerturbationOf(rnd: U8, randomness: U8): (p: U8)
    ensures p <= randomness / 4 && p <= 62
    ensures randomness < 4 ==> p == 0
  {
    U8U8MulShift8(rnd, randomness / 4)
  }

  /** The re-roll at step 0: `RandByte` is called exactly three times, in part
      order, and each result becomes that part's perturbation. A nonzero LFSR
      state stays nonzero. */
  function Reroll(rng: bv16, randomness: U8): (r: (bv16, Perturbation))
    ensures r.0 == Lfsr.Next(Lfsr.Next(Lfsr.Next(rng)))
    ensures rng != 0 ==> r.0 != 0
    ensures forall part :: 0 <= part < 3 ==> r.1[part] <= randomness / 4
    ensures randomness < 4 ==> r.1 == [0, 0, 0]
  {
    var s1 := Lfsr.Next(rng);
    var s2 := Lfsr.Next(s1);
    var s3 := Lfsr.Next(s2);
    (s3, [PerturbationOf(Lfsr.HighByte(s1), randomness),
          PerturbationOf(Lfsr.HighByte(s2), randomness),
          PerturbationOf(Lfsr.HighByte(s3), randomness)])
  }

  /** The perturbed level: `level + p` saturated at 255, never wrapping. */
  function Perturbed(level: U8, p: U8): (r: U8)
    ensures r == Min(level + p, 255)
    ensures level <= r
  {
    if level < ToU8(255 - p) then level + p else 255
  }

  /** Trigger and accent of one part. The threshold is `~density` as a byte,
      so a part fires exactly when level + density exceeds 255: density 0
      never fires and density 255 fires on any nonzero level. The accent is a
      trigger whose level is above 192. */
  function PartOutcome(level: U8, density: U8): (r: (bool, bool))
    ensures r.0 <==> level + density > 255
    ensures r.1 <==> r.0 && level > 192
    ensures density == 0 ==> !r.0
    ensures density == 255 ==> (r.0 <==> level > 0)
  {
    var threshold := ToU8(255 - density);
    if level > threshold then (true, level > 192) else (false, false)
  }

  /** The level part `part` is compared with at `step` under perturbation `p`. */
  function PartLevel(nodes: NodeTable, p: Perturbation, step: U8, part: nat, x: U8, y: U8): U8
    requires step < StepsPerCycle && part < 3
  {
    Perturbed(ReadDrumMap(nodes, step, part, x, y), p[part])
  }

  /** The arguments of one `Tick` call. */
  datatype TickInput = TickInput(x: U8, y: U8, densityBd: U8, densitySd: U8, densityHh: U8, randomness: U8)

  function Density(t: TickInput, part: nat): U8
    requires part < 3
  {
    if part == 0 then t.densityBd else if part == 1 then t.densitySd else t.densityHh
  }

  /** The state change of one `Tick`: re-roll the perturbation only at step 0
      and advance the step modulo 32; `rng` and `perturb` are untouched at every
      other step. It depends on the randomness argument alone. */
  function NextState(g: GenState, randomness: U8): (r: GenState)
    requires g.step < StepsPerCycle
    ensures r.step == (g.step + 1) % 32
    ensures g.step != 0 ==> r.rng == g.rng && r.perturb == g.perturb
    ensures g.step == 0 ==> (r.rng, r.perturb) == Reroll(g.rng, randomness)
    ensures ValidState(g) ==> ValidState(r)
  {
    var (rng, p) := if g.step == 0 then Reroll(g.rng, randomness) else (g.rng, g.perturb);
    // `(step_ + 1) & 0x1F`; step_ + 1 <= 32, so the byte cast never wraps
    GenState(rng, (g.step + 1) % 32, p)
  }

  /** The outcome of one `Tick` at `step` under perturbation `p`: each part's
      trigger and accent are those of `PartOutcome` at its perturbed level, so
      an accent always comes with a trigger. */
  function StepOutcome(nodes: NodeTable, p: Perturbation, step: U8, t: TickInput): (r: GridsStep)
    requires step < StepsPerCycle
    ensures (r.bdAccent ==> r.bd) && (r.sdAccent ==> r.sd) && (r.hhAccent ==> r.hh)
  {
    var bd := PartOutcome(PartLevel(nodes, p, step, 0, t.x, t.y), t.densityBd);
    var sd := PartOutcome(PartLevel(nodes, p, step, 1, t.x, t.y), t.densitySd);
    var hh := PartOutcome(PartLevel(nodes, p, step, 2, t.x, t.y), t.densityHh);
    GridsStep(bd.0, sd.0, hh.0, bd.1, sd.1, hh.1)
  }

  /** Each part of a tick's outcome is `PartOutcome` of that part's perturbed
      level and density, so an accent always comes with a trigger. */
  lemma StepOutcomeParts(nodes: NodeTable, p: Perturbation, step: U8, t: TickInput)
    requires step < StepsPerCycle
    ensures var s := StepOutcome(nodes, p, step, t);
            forall part :: 0 <= part < 3 ==>
              (Trig(s, part), Accent(s, part)) ==
              PartOutcome(PartLevel(nodes, p, step, part, t.x, t.y), Density(t, part))
    ensures var s := StepOutcome(nodes, p, step, t);
            forall part :: 0 <= part < 3 ==> Accent(s, part) ==> Trig(s, part)
  {
  }

  /** One `Tick`: the new state, and the outcome evaluated with the new
      (possibly just re-rolled) perturbation at the old step. */
  function TickFn(nodes: NodeTable, g: GenState, t: TickInput): (r: (GenState, GridsStep))
    requires g.step < StepsPerCycle
    ensures r.0.step == (g.step + 1) % 32
    ensures g.step != 0 ==> r.0.rng == g.rng && r.0.perturb == g.perturb
    ensures ValidState(g) ==> ValidState(r.0)
    ensures (r.1.bdAccent ==> r.1.bd) && (r.1.sdAccent ==> r.1.sd) && (r.1.hhAccent ==> r.1.hh)
  {
    var g1 := NextState(g, t.randomness);
    (g1, StepOutcome(nodes, g1.perturb, g.step, t))
  }

  /** The state after a run of ticks given their randomness arguments. */
  function RunState(g: GenState, inputs: seq<TickInput>): (r: GenState)
    requires g.step < StepsPerCycle
    ensures ValidState(g) ==> ValidState(r)
    ensures r.step < StepsPerCycle
    decreases |inputs|
  {
    if inputs == [] then g else RunState(NextState(g, inputs[0].randomness), inputs[1..])
  }

  /** After n ticks the step has advanced by n modulo 32; in particular every
      32 ticks bring it back to where it started. */
  lemma {:induction false} RunAdvancesStep(g: GenState, inputs: seq<TickInput>)
    requires g.step < StepsPerCycle
    ensures RunState(g, inputs).step == (g.step + |inputs|) % 32
    decreases |inputs|
  {
    if inputs != [] {
      var g1 := NextState(g, inputs[0].randomness);
      RunAdvancesStep(g1, inputs[1..]);
      CycleAdvance(g.step, |inputs| - 1);
    }
  }

  /** Advancing by one and then by n modulo 32 is advancing by n + 1. */
  lemma CycleAdvance(a: nat, n: nat)
    ensures ((a + 1) % 32 + n) % 32 == (a + 1 + n) % 32
  {
    var q := (a + 1) / 32;
    assert a + 1 + n == 32 * q + ((a + 1) % 32 + n);
  }

  /** Within one cycle no tick touches the LFSR or the perturbation: a run that
      starts after step 0 and does not reach the next step 0 leaves both as they
      were. */
  lemma {:induction false} PerturbationLockedWithinCycle(g: GenState, inputs: seq<TickInput>)
    requires 0 < g.step < StepsPerCycle
    requires g.step + |inputs| <= StepsPerCycle
    ensures RunState(g, inputs).rng == g.rng
    ensures RunState(g, inputs).perturb == g.perturb
    decreases |inputs|
  {
    if inputs != [] {
      var g1 := NextState(g, inputs[0].randomness);
      if g1.step != 0 {
        PerturbationLockedWithinCycle(g1, inputs[1..]);
      } else {
        assert inputs[1..] == [];
      }
    }
  }

  /** Which outcome a tick gives with no perturbation at all: the interpolated
      level alone is compared with each density. */
  function Unperturbed(nodes: NodeTable, step: U8, t: TickInput): GridsStep
    requires step < StepsPerCycle
  {
    var bd := PartOutcome(ReadDrumMap(nodes, step, 0, t.x, t.y), t.densityBd);
    var sd := PartOutcome(ReadDrumMap(nodes, step, 1, t.x, t.y), t.densitySd);
    var hh := PartOutcome(ReadDrumMap(nodes, step, 2, t.x, t.y), t.densityHh);
    GridsStep(bd.0, sd.0, hh.0, bd.1, sd.1, hh.1)
  }

  /** With randomness below 4 on every tick, starting from no perturbation
      (as after `Init` or `Reset`), the perturbation stays zero ... */
  lemma {:induction false} LowRandomnessKeepsZeroPerturbation(g: GenState, inputs: seq<TickInput>)
    requires g.step < StepsPerCycle && g.perturb == [0, 0, 0]
    requires forall k :: 0 <= k < |inputs| ==> inputs[k].randomness < 4
    ensures RunState(g, inputs).perturb == [0, 0, 0]
    decreases |inputs|
  {
    if inputs != [] {
      LowRandomnessKeepsZeroPerturbation(NextState(g, inputs[0].randomness), inputs[1..]);
    }
  }

  /** ... and so, on every tick of such a run, the outcome is that of the
      pure interpolation (`Unperturbed`). */
  lemma UnperturbedOutcome(nodes: NodeTable, g: GenState, t: TickInput)
    requires g.step < StepsPerCycle && g.perturb == [0, 0, 0] && t.randomness < 4
    ensures TickFn(nodes, g, t).1 == Unperturbed(nodes, g.step, t)
    ensures var s := TickFn(nodes, g, t).1;
            forall part :: 0 <= part < 3 ==>
              (Trig(s, part), Accent(s, part)) ==
              PartOutcome(ReadDrumMap(nodes, g.step, part, t.x, t.y), Density(t, part))
  {
    var g1 := NextState(g, t.randomness);
    var s := StepOutcome(nodes, g1.perturb, g.step, t);
    StepOutcomeParts(nodes, g1.perturb, g.step, t);
    var u := Unperturbed(nodes, g.step, t);
    forall part | 0 <= part < 3
      ensures Trig(s, part) == Trig(u, part) && Accent(s, part) == Accent(u, part)
    {
      assert PartLevel(nodes, g1.perturb, g.step, part, t.x, t.y) == ReadDrumMap(nodes, g.step, part, t.x, t.y);
    }
    assert Trig(s, 0) == Trig(u, 0) && Trig(s, 1) == Trig(u, 1) && Trig(s, 2) == Trig(u, 2);
    assert Accent(s, 0) == Accent(u, 0) && Accent(s, 1) == Accent(u, 1) && Accent(s, 2) == Accent(u, 2);
  }

  /** Raising a part's density never removes its trigger. */
  lemma DensityMonotone(level: U8, d1: U8, d2: U8)
    requires d1 <= d2 && PartOutcome(level, d1).0
    ensures PartOutcome(level, d2).0
  {
  }

  /** The generator object. `nodes` stands for the compiled-in node tables. */
  class GridsDrumGenerator {
    const nodes: NodeTable
    var rngState: bv16
    var currentStep: U8
    const perturb: array<U8>

    ghost predicate Valid()
      reads this, perturb
    {
      perturb.Length == 3 && ValidState(State())
    }

    /** The abstract state. */
    function State(): GenState
      reads this, perturb
      requires perturb.Length == 3
    {
      GenState(rngState, currentStep, perturb[..])
    }

    /** A freshly constructed generator: `rng_state_ = 1`, `step_ = 0`, no
        perturbation. */
    constructor (nodes: NodeTable)
      ensures Valid() && fresh(perturb)
      ensures this.nodes == nodes
      ensures State() == GenState(1, 0, [0, 0, 0])
    {
      this.nodes := nodes;
      rngState := 1;
      currentStep := 0;
      perturb := new U8[3](_ => 0);
      new;
      assert perturb[..] == [0, 0, 0];
    }

    /** `Init(seed = 1)`: a zero seed is replaced by 1 (zero is a fixed point
        of the LFSR), then `Reset`. */
    method Init(seed: bv16 := 1)
      requires perturb.Length == 3
      modifies this, perturb
      ensures Valid()
      ensures State() == GenState(if seed != 0 then seed else 1, 0, [0, 0, 0])
    {
      rngState := if seed != 0 then seed else 1;
      Reset();
    }

    /** `Reset`: step 0 and no perturbation, `rng_state_` unchanged. */
    method Reset()
      requires perturb.Length == 3
      modifies this`currentStep, perturb
      ensures State() == ResetState(old(State()))
    {
      currentStep := 0;
      perturb[0], perturb[1], perturb[2] := 0, 0, 0;
      assert perturb[..] == [0, 0, 0];
    }

    /** One LFSR step; returns the high byte of the new state. */
    method RandByte() returns (b: U8)
      modifies this`rngState
      ensures rngState == Lfsr.Next(old(rngState))
      ensures b == Lfsr.HighByte(rngState)
    {
      rngState := Lfsr.Next(rngState);
      b := Lfsr.HighByte(rngState);
    }

    /** The step accessor; always in 0..31. */
    function Step(): (s: U8)
      reads this, perturb
      requires Valid()
      ensures s < StepsPerCycle
    {
      currentStep
    }

    /** The re-roll half of `Tick` at step 0: three `RandByte` draws, each
        scaled by `randomness >> 2` into one part's perturbation. */
    method RerollPerturbation(randomness: U8)
      requires perturb.Length == 3
      modifies this`rngState, perturb
      ensures (rngState, perturb[..]) == Reroll(old(rngState), randomness)
    {
      var r := randomness / 4;
      var b0 := RandByte();
      perturb[0] := U8U8MulShift8(b0, r);
      var b1 := RandByte();
      perturb[1] := U8U8MulShift8(b1, r);
      var b2 := RandByte();
      perturb[2] := U8U8MulShift8(b2, r);
      assert perturb[..] == [perturb[0], perturb[1], perturb[2]];
    }

    /** The evaluation half of `Tick`: each part's level at the current step,
        perturbed and compared with its density. */
    method Evaluate(x: U8, y: U8, densityBd: U8, densitySd: U8, densityHh: U8, randomness: U8)
      returns (s: GridsStep)
      requires Valid()
      ensures s == StepOutcome(nodes, perturb[..], currentStep, TickInput(x, y, densityBd, densitySd, densityHh, randomness))
    {
      ghost var t := TickInput(x, y, densityBd, densitySd, densityHh, randomness);
      var densities := [densityBd, densitySd, densityHh];
      var trig := new bool[3](_ => false);
      var accent := new bool[3](_ => false);
      for part := 0 to 3
        invariant forall k :: 0 <= k < part ==>
                    (trig[k], accent[k]) == PartOutcome(PartLevel(nodes, perturb[..], currentStep, k, x, y), densities[k])
      {
        var level := ReadDrumMap(nodes, currentStep, part, x, y);
        trig[part], accent[part] := Compare(level, perturb[part], densities[part]);
      }
      s := GridsStep(trig[0], trig[1], trig[2], accent[0], accent[1], accent[2]);
      ghost var e := StepOutcome(nodes, perturb[..], currentStep, t);
      StepOutcomeParts(nodes, perturb[..], currentStep, t);
      assert Trig(e, 0) == trig[0] && Trig(e, 1) == trig[1] && Trig(e, 2) == trig[2];
      assert Accent(e, 0) == accent[0] && Accent(e, 1) == accent[1] && Accent(e, 2) == accent[2];
    }

    /** One part's comparison: the level perturbed by `pk` without wrapping,
        then checked against the inverted density and the accent threshold. */
    static method Compare(level: U8, pk: U8, density: U8) returns (trig: bool, accent: bool)
      ensures (trig, accent) == PartOutcome(Perturbed(level, pk), density)
    {
      var v := level;
      if v < ToU8(255 - pk) {
        v := v + pk;
      } else {
        v := 255;
      }
      trig, accent := false, false;
      var threshold := ToU8(255 - density);
      if v > threshold {
        trig := true;
        if v > 192 {
          accent := true;
        }
      }
    }

    /** `Tick`: as `TickFn` on the abstract state. Two generators in equal
        states given equal arguments therefore return equal outcomes and reach
        equal states; nothing else is read. */
    method Tick(x: U8, y: U8, densityBd: U8, densitySd: U8, densityHh: U8, randomness: U8)
      returns (s: GridsStep)
      requires Valid()
      modifies this, perturb
      ensures Valid()
      ensures (State(), s) == TickFn(nodes, old(State()), TickInput(x, y, densityBd, densitySd, densityHh, randomness))
    {
      RerollAtCycleStart(randomness);
      s := Evaluate(x, y, densityBd, densitySd, densityHh, randomness);
      currentStep := (currentStep + 1) % 32;
    }

    /** The first statement of `Tick`: re-roll the perturbation when the
        pattern starts over (step 0); the step itself is advanced last. */
    method RerollAtCycleStart(randomness: U8)
      requires Valid()
      modifies this`rngState, perturb
      ensures Valid() && currentStep == old(currentStep)
      ensures var g := NextState(old(State()), randomness);
              rngState == g.rng && perturb[..] == g.perturb
    {
      if currentStep == 0 {
        RerollPerturbation(randomness);
      }
    }
  }
}
