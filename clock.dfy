/** The integer clock and scheduling logic of the sequencer's audio callback:
    gate edge detection, the internal and edit-mode tick accumulators, the
    external-clock latch with its period measurement and x4 multiplier, the
    sub-mode button, and the 480-sample trigger holds. Each piece is a pure
    function of the previous values of the globals it touches. */
module Clock {
  import opened FixedPoint

  /** `kClockMultiplier`: sub-ticks per external clock period. */
  const ClockMultiplier: nat := 4
  /** `kTriggerSamples`: length of an external trigger pulse, in samples. */
  const TriggerSamples: nat := 480
  /** `kNumSubModes`: pattern mode and three voice edit modes. */
  const NumSubModes: nat := 4

  /** A gate is rising when it is high now and was low in the previous block. */
  function RisingEdge(now: bool, prev: bool): bool
  {
    now && !prev
  }

  /** The number of rising edges a gate shows over a run of blocks, given
      its level before the first one. */
  function EdgeCount(prev: bool, levels: seq<bool>): nat
    decreases |levels|
  {
    if levels == [] then 0
    else (if RisingEdge(levels[0], prev) then 1 else 0) + EdgeCount(levels[0], levels[1..])
  }

  /** A gate held high for any number of blocks is one edge, seen in the first
      block only if the gate was low before. */
  lemma {:induction false} HeldGateRisesOnce(prev: bool, levels: seq<bool>)
    requires forall k :: 0 <= k < |levels| ==> levels[k]
    ensures EdgeCount(prev, levels) == if levels != [] && !prev then 1 else 0
    decreases |levels|
  {
    if levels != [] {
      assert forall k :: 0 <= k < |levels[1..]| ==> levels[1..][k] == levels[k + 1];
      HeldGateRisesOnce(levels[0], levels[1..]);
    }
  }

  /** Two rising edges need a low level in between: the number of edges
      never exceeds one more than the number of low blocks. */
  lemma {:induction false} EdgesNeedLowLevels(prev: bool, levels: seq<bool>)
    ensures EdgeCount(prev, levels) <= LowCount(levels) + (if prev then 0 else 1)
    decreases |levels|
  {
    if levels != [] {
      EdgesNeedLowLevels(levels[0], levels[1..]);
    }
  }

  /** The number of blocks in which a gate is low. */
  function LowCount(levels: seq<bool>): nat
    decreases |levels|
  {
    if levels == [] then 0 else (if levels[0] then 0 else 1) + LowCount(levels[1..])
  }

  /** Sum of a sequence of block sizes. */
  function Sum(sizes: seq<nat>): nat
    decreases |sizes|
  {
    if sizes == [] then 0 else sizes[0] + Sum(sizes[1..])
  }

  /** `InternalGridsClockTick` / `EditModeClockTick` on the accumulator `acc`:
      add the block size; on reaching `spt` subtract it (the excess carries
      over) and report one tick. No samples are lost or made up, and an
      accumulator below `spt` stays below it when blocks are no longer than
      `spt`. */
  function AccumulatorTick(acc: nat, blockSize: nat, spt: nat): (r: (nat, bool))
    ensures r.0 + (if r.1 then spt else 0) == acc + blockSize
    ensures r.1 <==> acc + blockSize >= spt
    ensures acc < spt && blockSize <= spt ==> r.0 < spt
  {
    var a := acc + blockSize;
    if a >= spt then (a - spt, true) else (a, false)
  }

  /** The accumulator and the tick count after a run of blocks. */
  function AccumulatorRun(acc: nat, sizes: seq<nat>, spt: nat): (nat, nat)
    decreases |sizes|
  {
    if sizes == [] then (acc, 0)
    else
      var (a1, t) := AccumulatorTick(acc, sizes[0], spt);
      var (a, n) := AccumulatorRun(a1, sizes[1..], spt);
      (a, n + (if t then 1 else 0))
  }

  /** Over any run, every sample fed in is either still in the accumulator or
      was paid out as part of a tick; with blocks no longer than `spt` the
      accumulator stays below `spt`, so the tick count is exactly
      floor((acc + total) / spt) and the remainder is what is left. */
  lemma {:induction false} AccumulatorRunCount(acc: nat, sizes: seq<nat>, spt: nat)
    requires acc < spt
    requires forall k :: 0 <= k < |sizes| ==> sizes[k] <= spt
    ensures AccumulatorRun(acc, sizes, spt).0 + AccumulatorRun(acc, sizes, spt).1 * spt == acc + Sum(sizes)
    ensures AccumulatorRun(acc, sizes, spt).0 < spt
    ensures AccumulatorRun(acc, sizes, spt).1 == (acc + Sum(sizes)) / spt
    ensures AccumulatorRun(acc, sizes, spt).0 == (acc + Sum(sizes)) % spt
    decreases |sizes|
  {
    if sizes != [] {
      var (a1, t) := AccumulatorTick(acc, sizes[0], spt);
      assert forall k :: 0 <= k < |sizes[1..]| ==> sizes[1..][k] == sizes[k + 1];
      AccumulatorRunCount(a1, sizes[1..], spt);
      var (a, n) := AccumulatorRun(a1, sizes[1..], spt);
      assert a + n * spt == a1 + Sum(sizes[1..]);
      assert AccumulatorRun(acc, sizes, spt) == (a, n + (if t then 1 else 0));
      assert a + (n + (if t then 1 else 0)) * spt == acc + Sum(sizes);
    }
    QuotientUnique(acc + Sum(sizes), spt, AccumulatorRun(acc, sizes, spt).1, AccumulatorRun(acc, sizes, spt).0);
  }

  /** Euclidean division is the only way to write n as q * d + r with r < d. */
  lemma QuotientUnique(n: nat, d: nat, q: nat, r: nat)
    requires r < d && r + q * d == n
    ensures q == n / d && r == n % d
  {
    var q0, r0 := n / d, n % d;
    assert q0 * d + r0 == n;
    if q < q0 {
      MulMono(q + 1, q0, d);
    } else if q0 < q {
      MulMono(q0 + 1, q, d);
    }
  }

  /** The external-clock globals: `g_use_ext_clock`, `g_ext_clk_period`,
      `g_ext_clk_last_edge`, `g_ext_clk_counter`, `g_ext_clk_mult_phase` and
      `g_sample_counter`. */
  datatype ExtClock = ExtClock(useExt: bool, period: nat, lastEdge: nat,
                               counter: nat, phase: nat, sampleCounter: nat)

  /** The clock state at power-up. */
  const ExtClockInit := ExtClock(false, 0, 0, 0, 0, 0)

  /** The sample count at which the next sub-tick is due. */
  function NextTickAt(phase: nat, interval: nat): nat
  {
    (phase + 1) * interval
  }

  /** One block of the external clock. The reset edge first zeroes the
      multiplier phase; the sample counter advances by the block; a clock edge
      measures the period (only when a previous edge was recorded and time has
      moved on), records the edge, restarts counter and phase and latches
      external mode; a reset edge then unlatches it and forgets period and
      edge, so reset wins over a simultaneous clock edge. A tick is produced
      only while latched with a known period: on the edge itself, or as the
      next of the three interpolated sub-ticks once the counter has passed
      `(phase + 1) * (period / 4)`. */
  function ExtClockStep(c: ExtClock, size: nat, clkRising: bool, rstRising: bool): (r: (ExtClock, bool))
    ensures r.0.sampleCounter == c.sampleCounter + size
    ensures rstRising ==> !r.0.useExt && r.0.period == 0 && r.0.lastEdge == 0 && !r.1
    ensures clkRising && !rstRising ==>
              r.0.useExt && r.0.lastEdge == r.0.sampleCounter && r.0.counter == 0 && r.0.phase == 0 &&
              r.0.period == (if 0 < c.lastEdge < r.0.sampleCounter then r.0.sampleCounter - c.lastEdge else c.period) &&
              (r.1 <==> r.0.period > 0)
    ensures !clkRising && !rstRising ==>
              r.0.useExt == c.useExt && r.0.period == c.period && r.0.lastEdge == c.lastEdge
    ensures r.1 ==> r.0.useExt && r.0.period > 0
    ensures c.phase <= 3 ==> r.0.phase <= 3
    ensures !clkRising && r.1 ==>
              r.0.phase == c.phase + 1 && r.0.counter >= r.0.phase * (r.0.period / 4)
  {
    var phase0 := if rstRising then 0 else c.phase;
    var now := c.sampleCounter + size;
    var period1 := if clkRising && c.lastEdge > 0 && now > c.lastEdge then now - c.lastEdge else c.period;
    var last1 := if clkRising then now else c.lastEdge;
    var counter1 := if clkRising then 0 else c.counter;
    var phase1 := if clkRising then 0 else phase0;
    var use1 := clkRising || c.useExt;
    var use2 := !rstRising && use1;
    var period2 := if rstRising then 0 else period1;
    var last2 := if rstRising then 0 else last1;
    if use2 && period2 > 0 then
      if clkRising then
        (ExtClock(use2, period2, last2, counter1, phase1, now), true)
      else
        var counter3 := counter1 + size;
        var interval := period2 / ClockMultiplier;
        if interval > 0 && phase1 < ClockMultiplier - 1 && counter3 >= NextTickAt(phase1, interval) then
          (ExtClock(use2, period2, last2, counter3, phase1 + 1, now), true)
        else
          (ExtClock(use2, period2, last2, counter3, phase1, now), false)
    else
      (ExtClock(use2, period2, last2, counter1, phase1, now), false)
  }

  /** A run of blocks with neither a clock nor a reset edge: the final clock
      state and the number of ticks. */
  function SilentRun(c: ExtClock, sizes: seq<nat>): (r: (ExtClock, nat))
    decreases |sizes|
  {
    if sizes == [] then (c, 0)
    else
      var (c1, t) := ExtClockStep(c, sizes[0], false, false);
      var (c2, n) := SilentRun(c1, sizes[1..]);
      (c2, n + (if t then 1 else 0))
  }

  /** Clock silence never leaves external mode, nor changes the measured
      period or the recorded edge; time keeps counting. */
  lemma {:induction false} SilenceKeepsLatch(c: ExtClock, sizes: seq<nat>)
    ensures SilentRun(c, sizes).0.useExt == c.useExt
    ensures SilentRun(c, sizes).0.period == c.period
    ensures SilentRun(c, sizes).0.lastEdge == c.lastEdge
    ensures SilentRun(c, sizes).0.sampleCounter == c.sampleCounter + Sum(sizes)
    decreases |sizes|
  {
    if sizes != [] {
      SilenceKeepsLatch(ExtClockStep(c, sizes[0], false, false).0, sizes[1..]);
    }
  }

  /** Between two edges every tick is a sub-tick that advances the phase, so
      their number is the phase gained, and no more than three. */
  lemma {:induction false} SubTicksArePhaseSteps(c: ExtClock, sizes: seq<nat>)
    requires c.phase <= 3
    ensures c.phase <= SilentRun(c, sizes).0.phase <= 3
    ensures SilentRun(c, sizes).1 == SilentRun(c, sizes).0.phase - c.phase
    ensures SilentRun(c, sizes).1 <= 3
    decreases |sizes|
  {
    if sizes != [] {
      var (c1, t) := ExtClockStep(c, sizes[0], false, false);
      assert c1.phase == if t then c.phase + 1 else c.phase;
      SubTicksArePhaseSteps(c1, sizes[1..]);
    }
  }

  /** The multiplier's schedule: while blocks are no longer than the tick
      interval, the phase always equals the number of interval boundaries
      the counter has passed, capped at 3, so no sub-tick is ever late by
      more than one block. */
  predicate OnSchedule(c: ExtClock)
    requires c.period / 4 > 0
  {
    c.phase == Min(3, c.counter / (c.period / 4))
  }

  /** `OnSchedule` is preserved by a silent block no longer than the interval. */
  lemma SilentBlockOnSchedule(c: ExtClock, size: nat)
    requires c.useExt && c.period / 4 > 0 && OnSchedule(c)
    requires size <= c.period / 4
    ensures ExtClockStep(c, size, false, false).0.period == c.period
    ensures OnSchedule(ExtClockStep(c, size, false, false).0)
    ensures ExtClockStep(c, size, false, false).0.counter == c.counter + size
  {
    var i := c.period / 4;
    var r := ExtClockStep(c, size, false, false).0;
    assert r.phase == if c.phase < 3 && c.counter + size >= NextTickAt(c.phase, i) then c.phase + 1 else c.phase;
    ScheduleStep(c.counter, size, i, c.phase);
  }

  /** The arithmetic behind `SilentBlockOnSchedule`: a counter that moves by
      at most one interval passes at most one boundary. */
  lemma ScheduleStep(counter: nat, size: nat, i: nat, phase: nat)
    requires i > 0 && size <= i && phase == Min(3, counter / i)
    ensures (if phase < 3 && counter + size >= NextTickAt(phase, i) then phase + 1 else phase)
            == Min(3, (counter + size) / i)
  {
    var q := counter / i;
    var n := counter + size;
    var lo := q * i;
    assert counter == lo + counter % i;
    Distrib(q, i);
    if phase < 3 {
      assert NextTickAt(phase, i) == lo + i;
      if n >= lo + i {
        QuotientUnique(n, i, q + 1, n - (lo + i));
      } else {
        QuotientUnique(n, i, q, n - lo);
      }
    } else {
      DivAtLeast(n, i, 3);
    }
  }

  /** (q + 1) * i and 3 * i in terms of q * i. */
  lemma Distrib(q: nat, i: nat)
    ensures (q + 1) * i == q * i + i
    ensures 3 <= q ==> 3 * i <= q * i
  {
    if 3 <= q {
      MulMono(3, q, i);
    }
  }

  /** n / d >= k whenever n >= k * d. */
  lemma DivAtLeast(n: nat, d: nat, k: nat)
    requires d > 0 && n >= k * d
    ensures n / d >= k
  {
    if n / d < k {
      MulMono(n / d + 1, k, d);
    }
  }

  /** The phase reached after a silent run on schedule, and the exact number
      of sub-ticks: capped multiples of the interval passed. */
  lemma {:induction false} SilentRunOnSchedule(c: ExtClock, sizes: seq<nat>)
    requires c.useExt && c.period / 4 > 0 && OnSchedule(c)
    requires forall k :: 0 <= k < |sizes| ==> sizes[k] <= c.period / 4
    ensures SilentRun(c, sizes).0.period == c.period
    ensures SilentRun(c, sizes).0.counter == c.counter + Sum(sizes)
    ensures OnSchedule(SilentRun(c, sizes).0)
    decreases |sizes|
  {
    if sizes != [] {
      SilentBlockOnSchedule(c, sizes[0]);
      var c1 := ExtClockStep(c, sizes[0], false, false).0;
      assert forall k :: 0 <= k < |sizes[1..]| ==> sizes[1..][k] == sizes[k + 1];
      SilentRunOnSchedule(c1, sizes[1..]);
    }
  }

  /** The x4 multiplier after a clock edge whose measured period gives a
      nonzero interval: the edge block ticks, and the silent blocks after it
      (each no longer than the interval) add one sub-tick per interval the
      counter passes, three at most. A full period of silence therefore makes
      four ticks in all. */
  lemma MultiplierTicks(c: ExtClock, edgeSize: nat, sizes: seq<nat>)
    requires c.phase <= 3
    requires var e := ExtClockStep(c, edgeSize, true, false).0; e.period / 4 > 0
    requires forall k :: 0 <= k < |sizes| ==>
               sizes[k] <= ExtClockStep(c, edgeSize, true, false).0.period / 4
    ensures var (e, t) := ExtClockStep(c, edgeSize, true, false);
            t && SilentRun(e, sizes).1 == Min(3, Sum(sizes) / (e.period / 4))
  {
    var e := ExtClockStep(c, edgeSize, true, false).0;
    assert e.counter == 0 && e.phase == 0;
    assert OnSchedule(e);
    SilentRunOnSchedule(e, sizes);
    SubTicksArePhaseSteps(e, sizes);
  }

  /** The first clock edge after power-up or a reset latches external mode
      but gives no tick, since no period is known yet. */
  lemma FirstEdgeNoTick(c: ExtClock, size: nat)
    requires c.lastEdge == 0 && c.period == 0
    ensures var (e, t) := ExtClockStep(c, size, true, false);
            e.useExt && e.period == 0 && !t
  {
  }

  /** A latched clock with no period (one edge seen) stays silent however
      long the gap: only a second edge can start the ticks. */
  lemma {:induction false} NoPeriodNoTicks(c: ExtClock, sizes: seq<nat>)
    requires c.period == 0
    ensures SilentRun(c, sizes).1 == 0
    decreases |sizes|
  {
    if sizes != [] {
      NoPeriodNoTicks(ExtClockStep(c, sizes[0], false, false).0, sizes[1..]);
    }
  }

  /** Two clock edges with silence between: once the first edge is recorded
      at a nonzero sample count, the second one sets the period to the samples
      between them and ticks. */
  lemma PeriodIsEdgeDistance(c: ExtClock, size0: nat, sizes: seq<nat>, size1: nat)
    requires c.sampleCounter + size0 > 0 && Sum(sizes) + size1 > 0
    ensures var e1 := ExtClockStep(c, size0, true, false).0;
            var s := SilentRun(e1, sizes).0;
            var (e2, t) := ExtClockStep(s, size1, true, false);
            e2.period == Sum(sizes) + size1 && t
  {
    var e1 := ExtClockStep(c, size0, true, false).0;
    SilenceKeepsLatch(e1, sizes);
  }
  /** The `last_edge > 0` guard treats an edge recorded at sample count 0 as
      no edge: after a first edge in a zero-size first block, the next edge
      still finds no period and does not tick. */
  lemma EdgeAtZeroSetsNoPeriod(size1: nat)
    ensures var e1 := ExtClockStep(ExtClockInit, 0, true, false).0;
            var (e2, t) := ExtClockStep(e1, size1, true, false);
            e1.lastEdge == 0 && e2.period == 0 && !t
  {
  }


  /** `(g_trig_*_remaining > size) ? remaining - size : 0`, applied only to a
      nonzero hold. */
  function DecayHold(rem: nat, size: nat): (r: nat)
    ensures r == Max(rem - size, 0)
  {
    if rem > 0 then (if rem > size then rem - size else 0) else rem
  }

  /** A hold after a run of blocks with no re-arming. */
  function DecayRun(rem: nat, sizes: seq<nat>): nat
    decreases |sizes|
  {
    if sizes == [] then rem else DecayRun(DecayHold(rem, sizes[0]), sizes[1..])
  }

  /** A hold runs down by exactly the samples elapsed, stopping at 0; a gate
      armed with 480 is therefore high for exactly the blocks that start
      before 480 samples have passed. */
  lemma {:induction false} DecayRunIsElapsed(rem: nat, sizes: seq<nat>)
    ensures DecayRun(rem, sizes) == Max(rem - Sum(sizes), 0)
    ensures DecayRun(rem, sizes) > 0 <==> Sum(sizes) < rem
    decreases |sizes|
  {
    if sizes != [] {
      DecayRunIsElapsed(DecayHold(rem, sizes[0]), sizes[1..]);
    }
  }

  /** The sub-mode after the button: one step round 0..3 on a rising edge. */
  function NextSubMode(m: nat, rising: bool): (r: nat)
    requires m < NumSubModes
    ensures r < NumSubModes
    ensures !rising ==> r == m
    ensures rising ==> r == if m == 3 then 0 else m + 1
  {
    if rising then (m + 1) % NumSubModes else m
  }
}
