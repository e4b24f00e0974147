/** What the generation loop of the Synthesizer promises, stated over the
    value model of module ToneGenerator: the ramp sample and its bounds, the
    deferred period switch, the playout countdown and its expiry, and the
    behaviour of a silent generator. */
module ToneProperties {
  import opened ToneGenerator

  // ---------------------------------------------------------------------
  // The ramp sample

  lemma MulLe(b: int, x: int, y: int)
    requires 0 <= b && x <= y
    ensures b * x <= b * y
  {
    assert b * y - b * x == b * (y - x);
  }

  lemma MulLt(b: int, x: int, y: int)
    requires 0 < b && x < y
    ensures b * x < b * y
  {
    assert b * y - b * x == b * (y - x);
  }

  /** On a non-negative dividend and a positive divisor, truncation and
      Dafny's Euclidean division agree. */
  lemma TruncDivNonNegative(a: int, b: int)
    requires 0 <= a && 0 < b
    ensures TruncDiv(a, b) == a / b
  {
  }

  lemma TruncDivMonotone(a1: int, a2: int, b: int)
    requires 0 <= a1 <= a2 && 0 < b
    ensures TruncDiv(a1, b) <= TruncDiv(a2, b)
  {
    TruncDivNonNegative(a1, b);
    TruncDivNonNegative(a2, b);
    var q1, q2 := a1 / b, a2 / b;
    if q1 > q2 {
      MulLe(b, q2 + 1, q1);
    }
  }

  /** While the phase lies inside the period the sample lies in
      [0, amplitude): 0 at the start of a period and when silent, and never
      the full amplitude.  A volume within 0..1023 also makes the sample fit
      its 16-bit slot unchanged. */
  lemma SampleWithinAmplitude(s: GeneratorState)
    requires 0 <= s.amplitude && 0 <= s.position
    requires 0 < s.periodNs ==> s.position < s.periodNs
    ensures 0 <= SampleValue(s) <= s.amplitude
    ensures 0 < s.periodNs && 0 < s.amplitude ==> SampleValue(s) < s.amplitude
    ensures s.periodNs <= 0 || s.position == 0 ==> SampleValue(s) == 0
    ensures s.amplitude <= MaxVolume ==> ToU16(SampleValue(s)) == SampleValue(s)
  {
    if 0 < s.periodNs {
      var b := s.periodNs;
      MulLe(s.amplitude, 0, s.position);
      var a := s.amplitude * s.position;
      TruncDivNonNegative(a, b);
      var q := a / b;
      assert 0 <= q;
      if 0 < s.amplitude {
        MulLt(s.amplitude, s.position, b);
        assert a < s.amplitude * b;
        if q >= s.amplitude {
          MulLe(b, s.amplitude, q);
          assert false;
        }
      }
      if s.position == 0 {
        assert a == 0;
      }
    }
  }

  /** Within one period the ramp never falls: a step that does not reach
      the wrap keeps the period and advances the phase by one sample
      period, and the next sample is at least the current one. */
  lemma RampNonDecreasing(s: GeneratorState, samplePeriodNs: int)
    requires 0 <= s.amplitude && 0 <= s.position && 0 <= samplePeriodNs
    requires 0 < s.periodNs && s.position + samplePeriodNs < s.periodNs
    ensures Next(s, samplePeriodNs).periodNs == s.periodNs
    ensures Next(s, samplePeriodNs).position == s.position + samplePeriodNs
    ensures SampleValue(s) <= SampleValue(Next(s, samplePeriodNs))
  {
    var t := Next(s, samplePeriodNs);
    MulLe(s.amplitude, s.position, t.position);
    MulLe(s.amplitude, 0, s.position);
    TruncDivMonotone(s.amplitude * s.position, s.amplitude * t.position, s.periodNs);
  }

  // ---------------------------------------------------------------------
  // Wrapping and the deferred period switch

  /** The period changes only at a wrap (the advanced phase reaching the
      period), only to the pending period, and then the phase restarts at
      0; a wrap with nothing pending subtracts the period once; a step
      short of the wrap only advances the phase. */
  lemma WrapRule(s: GeneratorState, samplePeriodNs: int)
    ensures var t := Next(s, samplePeriodNs);
      t.periodNs != s.periodNs ==>
        s.position + samplePeriodNs >= s.periodNs && t.periodNs == s.newPeriodNs && t.position == 0
    ensures var t := Next(s, samplePeriodNs);
      s.position + samplePeriodNs >= s.periodNs && s.periodNs != s.newPeriodNs ==>
        t.periodNs == s.newPeriodNs && t.position == 0
    ensures var t := Next(s, samplePeriodNs);
      s.position + samplePeriodNs >= s.periodNs && s.periodNs == s.newPeriodNs ==>
        t.periodNs == s.periodNs && t.position == s.position + samplePeriodNs - s.periodNs
    ensures var t := Next(s, samplePeriodNs);
      s.position + samplePeriodNs < s.periodNs ==>
        t.periodNs == s.periodNs && t.position == s.position + samplePeriodNs
  {
  }

  /** A silent generator (period 0) wraps on every sample, so a pending
      tone starts at the very next sample, from phase 0. */
  lemma ToneStartsAfterSilence(s: GeneratorState, samplePeriodNs: int)
    requires s.periodNs == 0 && s.newPeriodNs != 0 && 0 <= s.position + samplePeriodNs
    ensures Next(s, samplePeriodNs).periodNs == s.newPeriodNs
    ensures Next(s, samplePeriodNs).position == 0
  {
  }

  /** The phase stays inside the period when neither the current nor the
      pending period is shorter than one sample period. */
  predicate InPhase(s: GeneratorState, samplePeriodNs: int)
  {
    0 <= samplePeriodNs && 0 <= s.position && 0 <= s.periodNs && 0 <= s.newPeriodNs
    && (0 < s.periodNs ==> samplePeriodNs <= s.periodNs && s.position < s.periodNs)
    && (0 < s.newPeriodNs ==> samplePeriodNs <= s.newPeriodNs)
  }

  lemma NextKeepsPhase(s: GeneratorState, samplePeriodNs: int)
    requires InPhase(s, samplePeriodNs)
    ensures InPhase(Next(s, samplePeriodNs), samplePeriodNs)
    ensures Next(s, samplePeriodNs).amplitude == s.amplitude
  {
  }

  lemma {:induction false} RunKeepsPhase(s: GeneratorState, samplePeriodNs: int, n: nat)
    requires InPhase(s, samplePeriodNs)
    ensures InPhase(Run(s, samplePeriodNs, n), samplePeriodNs)
    ensures Run(s, samplePeriodNs, n).amplitude == s.amplitude
    decreases n
  {
    if n > 0 {
      RunKeepsPhase(s, samplePeriodNs, n - 1);
      NextKeepsPhase(Run(s, samplePeriodNs, n - 1), samplePeriodNs);
    }
  }

  /** Every sample of a buffer rendered from a state in phase, at a volume
      within 0..1023, is the ramp value itself and lies in [0, amplitude]. */
  lemma RenderWithinAmplitude(s: GeneratorState, samplePeriodNs: int, n: nat)
    requires InPhase(s, samplePeriodNs) && 0 <= s.amplitude <= MaxVolume
    ensures forall k :: 0 <= k < n ==>
      Render(s, samplePeriodNs, n)[k] == SampleValue(Run(s, samplePeriodNs, k))
      && 0 <= Render(s, samplePeriodNs, n)[k] <= s.amplitude
  {
    forall k | 0 <= k < n
      ensures Render(s, samplePeriodNs, n)[k] == SampleValue(Run(s, samplePeriodNs, k))
      ensures 0 <= Render(s, samplePeriodNs, n)[k] <= s.amplitude
    {
      RunKeepsPhase(s, samplePeriodNs, k);
      SampleWithinAmplitude(Run(s, samplePeriodNs, k));
    }
  }

  /** Without the bound of InPhase the ramp overshoots: a 10 ns period
      played at a 25 ns sample period leaves the phase past the period after
      its single subtraction, and the next sample exceeds the amplitude. */
  lemma PhaseBoundNeedsSlowTone()
    ensures var s := GeneratorState(1023, 10, 10, 0, 0, 0);
      Next(s, 25).position == 15 && SampleValue(Next(s, 25)) == 1534
  {
  }

  /** A tone whose period is shorter than the sample period (and is not
      about to change) never wraps back below its period: each sample
      subtracts the period once, so the phase grows by the difference. */
  lemma {:induction false} FastTonePositionGrows(s: GeneratorState, samplePeriodNs: int, n: nat)
    requires 0 < s.periodNs == s.newPeriodNs <= samplePeriodNs && 0 <= s.position && s.playoutTimeUs <= 0
    ensures Run(s, samplePeriodNs, n).position == s.position + n * (samplePeriodNs - s.periodNs)
    ensures Run(s, samplePeriodNs, n).periodNs == s.periodNs
    decreases n
  {
    if n > 0 {
      FastTonePositionGrows(s, samplePeriodNs, n - 1);
      IndefiniteKeepsPending(s, samplePeriodNs, n - 1);
      var d := samplePeriodNs - s.periodNs;
      MulLe(d, 0, n - 1);
      assert n * d == (n - 1) * d + d;
    }
  }

  /** The 16-bit store wraps: a tone with a 30000 ns period (about
      33.3 kHz) at 16000 samples per second gains 32500 ns of phase per
      sample, so at sample 60 the ramp value is 66495, which its slot holds
      as 959.  The product amplitude * position is then still below 2^31,
      so the wrap comes before any 32-bit overflow of that product. */
  lemma FastToneSampleWraps()
    ensures var s := GeneratorState(1023, 30000, 30000, 0, 0, 0);
      var t := Run(s, 62500, 60);
      t.amplitude * t.position < 0x8000_0000
      && SampleValue(t) == 66495 && Render(s, 62500, 61)[60] == 959
  {
    var s := GeneratorState(1023, 30000, 30000, 0, 0, 0);
    FastTonePositionGrows(s, 62500, 60);
    assert Run(s, 62500, 60).position == 1950000;
  }

  // ---------------------------------------------------------------------
  // The playout countdown

  /** One step of the countdown: an indefinite tone (playout time <= 0)
      leaves the playout time, the nanosecond remainder and the pending
      period alone; a timed tone's playout time never rises and never drops
      below 0, its remainder ends at most 1000 ns, and when the time reaches
      0 the pending period becomes silence. */
  lemma TimerStep(s: GeneratorState, samplePeriodNs: int)
    ensures var t := Next(s, samplePeriodNs);
      s.playoutTimeUs <= 0 ==>
        t.playoutTimeUs == s.playoutTimeUs && t.playoutSoFarNs == s.playoutSoFarNs
        && t.newPeriodNs == s.newPeriodNs
    ensures var t := Next(s, samplePeriodNs);
      0 < s.playoutTimeUs ==>
        0 <= t.playoutTimeUs <= s.playoutTimeUs && t.playoutSoFarNs <= NanosPerMicro
    ensures var t := Next(s, samplePeriodNs);
      0 < s.playoutTimeUs && t.playoutTimeUs == 0 ==> t.newPeriodNs == 0
    ensures var t := Next(s, samplePeriodNs);
      0 < t.playoutTimeUs ==> t.newPeriodNs == s.newPeriodNs
  {
  }

  /** Expiry does not silence the step it happens in: the period that step
      adopts is the one that was pending before the countdown ran, so it is
      0 only if the tone was already silent or silence was already pending. */
  lemma ExpiryDefersSilence(s: GeneratorState, samplePeriodNs: int)
    ensures Next(s, samplePeriodNs).periodNs == 0 ==> s.periodNs == 0 || s.newPeriodNs == 0
  {
  }

  /** Once silence is pending, it commits exactly at the next wrap. */
  lemma SilenceCommitsAtWrap(s: GeneratorState, samplePeriodNs: int)
    requires s.newPeriodNs == 0 && 0 < s.periodNs
    ensures Next(s, samplePeriodNs).periodNs == 0 <==> s.position + samplePeriodNs >= s.periodNs
  {
  }

  /** Pending silence is never undone by the loop itself: once the
      requested period is 0 it stays 0 over any number of samples. */
  lemma {:induction false} PendingSilenceStays(s: GeneratorState, samplePeriodNs: int, n: nat)
    requires s.newPeriodNs == 0
    ensures Run(s, samplePeriodNs, n).newPeriodNs == 0
    decreases n
  {
    if n > 0 {
      PendingSilenceStays(s, samplePeriodNs, n - 1);
    }
  }

  /** Pending silence arrives at the first wrap and not before: with k the
      first sample whose advance reaches the period, every state before it
      still renders the old period, and the state after it renders 0. */
  lemma SilenceArrives(s: GeneratorState, samplePeriodNs: int, k: nat)
    requires s.newPeriodNs == 0 && 0 < s.periodNs && 0 < samplePeriodNs && 0 < k
    requires s.position + (k - 1) * samplePeriodNs < s.periodNs <= s.position + k * samplePeriodNs
    ensures forall j :: 0 <= j < k ==> Run(s, samplePeriodNs, j).periodNs == s.periodNs
    ensures Run(s, samplePeriodNs, k).periodNs == 0 && Run(s, samplePeriodNs, k).newPeriodNs == 0
  {
    forall j | 0 <= j < k ensures Run(s, samplePeriodNs, j).periodNs == s.periodNs {
      PeriodKeptBeforeWrap(s, samplePeriodNs, k, j);
    }
    SilenceAtFirstWrap(s, samplePeriodNs, k);
    PendingSilenceStays(s, samplePeriodNs, k);
  }

  lemma PeriodKeptBeforeWrap(s: GeneratorState, samplePeriodNs: int, k: nat, j: nat)
    requires 0 < s.periodNs && 0 < samplePeriodNs && j < k
    requires s.position + (k - 1) * samplePeriodNs < s.periodNs
    ensures Run(s, samplePeriodNs, j).periodNs == s.periodNs
  {
    MulLe(samplePeriodNs, j, k - 1);
    assert s.position + j * samplePeriodNs < s.periodNs;
    RampWithinPeriod(s, samplePeriodNs, j);
  }

  lemma SilenceAtFirstWrap(s: GeneratorState, samplePeriodNs: int, k: nat)
    requires s.newPeriodNs == 0 && 0 < s.periodNs && 0 < samplePeriodNs && 0 < k
    requires s.position + (k - 1) * samplePeriodNs < s.periodNs <= s.position + k * samplePeriodNs
    ensures Run(s, samplePeriodNs, k).periodNs == 0
  {
    var u := Run(s, samplePeriodNs, k - 1);
    RampWithinPeriod(s, samplePeriodNs, k - 1);
    PendingSilenceStays(s, samplePeriodNs, k - 1);
    assert u.position + samplePeriodNs >= u.periodNs by {
      assert k * samplePeriodNs == (k - 1) * samplePeriodNs + samplePeriodNs;
    }
    SilenceCommitsAtWrap(u, samplePeriodNs);
  }

  /** Running n + m samples is running n samples and then m more. */
  lemma {:induction false} RunAdds(s: GeneratorState, samplePeriodNs: int, n: nat, m: nat)
    ensures Run(s, samplePeriodNs, n + m) == Run(Run(s, samplePeriodNs, n), samplePeriodNs, m)
    decreases m
  {
    if m > 0 {
      RunAdds(s, samplePeriodNs, n, m - 1);
    }
  }

  /** Once pending silence has arrived at sample k, it stays: every later
      state is silent and every later sample written is 0. */
  lemma SilenceEventually(s: GeneratorState, samplePeriodNs: int, k: nat, n: nat)
    requires s.newPeriodNs == 0 && 0 < s.periodNs && 0 < samplePeriodNs && 0 < k
    requires s.position + (k - 1) * samplePeriodNs < s.periodNs <= s.position + k * samplePeriodNs
    ensures forall j :: k <= j < n ==> Run(s, samplePeriodNs, j).periodNs == 0
    ensures forall j :: k <= j < n ==> Render(s, samplePeriodNs, n)[j] == 0
  {
    SilenceArrives(s, samplePeriodNs, k);
    var u := Run(s, samplePeriodNs, k);
    forall j | k <= j < n ensures Run(s, samplePeriodNs, j).periodNs == 0 {
      RunAdds(s, samplePeriodNs, k, j - k);
      SilenceIsStable(u, samplePeriodNs, j - k);
    }
  }

  /** Whole microseconds the countdown loop takes out of an accumulated
      `ns`: it stops as soon as at most 1000 ns remain, so an exact multiple
      of 1000 leaves a full 1000 behind. */
  function MicrosDrained(ns: int): nat
  {
    if ns <= NanosPerMicro then 0 else (ns - 1) / NanosPerMicro
  }

  function Residue(ns: int): int
  {
    ns - NanosPerMicro * MicrosDrained(ns)
  }

  /** The countdown loop in closed form. */
  lemma {:induction false} DrainClosedForm(soFarNs: int, timeUs: int)
    ensures Drain(soFarNs, timeUs)
      == Playout(Residue(soFarNs), if timeUs <= 0 then timeUs else Max0(timeUs - MicrosDrained(soFarNs)))
    decreases soFarNs
  {
    if soFarNs > NanosPerMicro {
      var rest := soFarNs - NanosPerMicro;
      DrainClosedForm(rest, if timeUs > 0 then timeUs - 1 else timeUs);
      assert MicrosDrained(soFarNs) == MicrosDrained(rest) + 1;
    }
  }

  /** Draining y nanoseconds and then y' more is draining y + y' at once. */
  lemma DrainedAdds(y: int, more: int)
    requires 0 <= y && 0 <= more
    ensures MicrosDrained(y) + MicrosDrained(Residue(y) + more) == MicrosDrained(y + more)
    ensures Residue(Residue(y) + more) == Residue(y + more)
  {
    var k, z := MicrosDrained(y), Residue(y) + more;
    if y > NanosPerMicro {
      assert 1 <= Residue(y) <= NanosPerMicro;
      assert MicrosDrained(z) == (z - 1) / NanosPerMicro;
      assert y + more - 1 == NanosPerMicro * k + (z - 1);
      assert (NanosPerMicro * k + (z - 1)) / NanosPerMicro == k + (z - 1) / NanosPerMicro;
    }
  }

  lemma OneMore(n: nat, d: int)
    requires 0 < n && 0 <= d
    ensures 0 <= (n - 1) * d && (n - 1) * d + d == n * d
  {
    MulLe(d, 0, n - 1);
  }

  lemma MicrosDrainedMonotone(x: int, y: int)
    requires x <= y
    ensures MicrosDrained(x) <= MicrosDrained(y)
  {
  }

  /** The countdown state reached after y elapsed nanoseconds of a timed
      tone of T microseconds. */
  predicate PlayoutAfter(t: GeneratorState, timeUs: int, y: int)
  {
    t.playoutTimeUs == Max0(timeUs - MicrosDrained(y))
    && (0 < t.playoutTimeUs ==> t.playoutSoFarNs == Residue(y))
    && (t.playoutTimeUs == 0 ==> t.newPeriodNs == 0)
  }

  lemma PlayoutStep(u: GeneratorState, samplePeriodNs: int, timeUs: int, y: int)
    requires 0 <= samplePeriodNs && 0 < timeUs && 0 <= y && PlayoutAfter(u, timeUs, y)
    ensures PlayoutAfter(Next(u, samplePeriodNs), timeUs, y + samplePeriodNs)
  {
    var a := Advance(u, samplePeriodNs);
    assert a.playoutTimeUs == u.playoutTimeUs && a.playoutSoFarNs == u.playoutSoFarNs;
    assert a.newPeriodNs == u.newPeriodNs;
    if u.playoutTimeUs == 0 {
      MicrosDrainedMonotone(y, y + samplePeriodNs);
    } else {
      DrainClosedForm(Residue(y) + samplePeriodNs, u.playoutTimeUs);
      DrainedAdds(y, samplePeriodNs);
    }
  }

  /** After n samples of a timed tone that started with at most 1000 ns
      pending, the playout time has dropped by exactly the whole
      microseconds drained from all the nanoseconds elapsed, clamped at 0;
      while it is still running, the remainder is what that drain leaves;
      once it is 0, silence is pending. */
  lemma {:induction false} PlayoutElapsed(s: GeneratorState, samplePeriodNs: int, n: nat)
    requires 0 <= samplePeriodNs && 0 < s.playoutTimeUs && 0 <= s.playoutSoFarNs <= NanosPerMicro
    ensures PlayoutAfter(Run(s, samplePeriodNs, n), s.playoutTimeUs, s.playoutSoFarNs + n * samplePeriodNs)
    decreases n
  {
    if n > 0 {
      PlayoutElapsed(s, samplePeriodNs, n - 1);
      var y := s.playoutSoFarNs + (n - 1) * samplePeriodNs;
      OneMore(n, samplePeriodNs);
      PlayoutStep(Run(s, samplePeriodNs, n - 1), samplePeriodNs, s.playoutTimeUs, y);
    }
  }

  /** A timed tone of T microseconds expires at the first sample by which
      strictly more than 1000 * T ns have elapsed, and silence is then
      pending. */
  lemma TimedToneExpiry(s: GeneratorState, samplePeriodNs: int, n: nat)
    requires 0 <= samplePeriodNs && 0 < s.playoutTimeUs && 0 <= s.playoutSoFarNs <= NanosPerMicro
    ensures Run(s, samplePeriodNs, n).playoutTimeUs == 0
      <==> s.playoutSoFarNs + n * samplePeriodNs > NanosPerMicro * s.playoutTimeUs
    ensures Run(s, samplePeriodNs, n).playoutTimeUs == 0 ==> Run(s, samplePeriodNs, n).newPeriodNs == 0
  {
    PlayoutElapsed(s, samplePeriodNs, n);
  }

  /** A 500 ms tone at 16000 samples per second (62500 ns per sample) still
      has 1 us left after 8000 samples and expires at sample 8001. */
  lemma HalfSecondAt16kHz(s: GeneratorState)
    requires s.playoutTimeUs == 500000 && s.playoutSoFarNs == 0
    ensures Run(s, 62500, 8000).playoutTimeUs == 1
    ensures Run(s, 62500, 8001).playoutTimeUs == 0 && Run(s, 62500, 8001).newPeriodNs == 0
  {
    PlayoutElapsed(s, 62500, 8000);
    PlayoutElapsed(s, 62500, 8001);
  }

  // ---------------------------------------------------------------------
  // Indefinite tones and silence

  /** An indefinite tone never touches the countdown, the pending period or
      the volume. */
  lemma {:induction false} IndefiniteKeepsPending(s: GeneratorState, samplePeriodNs: int, n: nat)
    requires s.playoutTimeUs <= 0
    ensures var t := Run(s, samplePeriodNs, n);
      t.playoutTimeUs == s.playoutTimeUs && t.playoutSoFarNs == s.playoutSoFarNs
      && t.newPeriodNs == s.newPeriodNs && t.amplitude == s.amplitude
    decreases n
  {
    if n > 0 {
      IndefiniteKeepsPending(s, samplePeriodNs, n - 1);
    }
  }

  /** Within one period the phase advances by exactly one sample period per
      sample and the period and volume stay put. */
  lemma {:induction false} RampWithinPeriod(s: GeneratorState, samplePeriodNs: int, k: nat)
    requires 0 < s.periodNs && 0 <= samplePeriodNs && s.position + k * samplePeriodNs < s.periodNs
    ensures Run(s, samplePeriodNs, k).position == s.position + k * samplePeriodNs
    ensures Run(s, samplePeriodNs, k).periodNs == s.periodNs
    ensures Run(s, samplePeriodNs, k).amplitude == s.amplitude
    decreases k
  {
    if k > 0 {
      assert k * samplePeriodNs == (k - 1) * samplePeriodNs + samplePeriodNs;
      RampWithinPeriod(s, samplePeriodNs, k - 1);
    }
  }

  lemma RampPair(s: GeneratorState, samplePeriodNs: int, i: nat, j: nat)
    requires 0 <= s.amplitude && 0 <= s.position && 0 <= samplePeriodNs && 0 < s.periodNs
    requires i <= j && s.position + j * samplePeriodNs < s.periodNs
    ensures SampleValue(Run(s, samplePeriodNs, i)) <= SampleValue(Run(s, samplePeriodNs, j))
  {
    MulLe(samplePeriodNs, i, j);
    MulLe(samplePeriodNs, 0, i);
    assert 0 <= i * samplePeriodNs <= j * samplePeriodNs;
    RampWithinPeriod(s, samplePeriodNs, i);
    RampWithinPeriod(s, samplePeriodNs, j);
    var si, sj := Run(s, samplePeriodNs, i), Run(s, samplePeriodNs, j);
    assert 0 <= si.position <= sj.position;
    var ai, aj := s.amplitude * si.position, s.amplitude * sj.position;
    MulLe(s.amplitude, si.position, sj.position);
    MulLe(s.amplitude, 0, si.position);
    assert SampleValue(si) == TruncDiv(ai, s.periodNs);
    assert SampleValue(sj) == TruncDiv(aj, s.periodNs);
    TruncDivMonotone(ai, aj, s.periodNs);
  }

  /** The samples rendered within one period rise monotonically. */
  lemma RampRises(s: GeneratorState, samplePeriodNs: int, n: nat)
    requires 0 <= s.amplitude <= MaxVolume && 0 <= s.position && 0 <= samplePeriodNs
    requires 0 < s.periodNs && (n == 0 || s.position + (n - 1) * samplePeriodNs < s.periodNs)
    ensures forall i, j :: 0 <= i <= j < n ==> Render(s, samplePeriodNs, n)[i] <= Render(s, samplePeriodNs, n)[j]
  {
    forall i, j | 0 <= i <= j < n ensures Render(s, samplePeriodNs, n)[i] <= Render(s, samplePeriodNs, n)[j] {
      RampPairRendered(s, samplePeriodNs, n, i, j);
    }
  }

  lemma RampPairRendered(s: GeneratorState, samplePeriodNs: int, n: nat, i: nat, j: nat)
    requires 0 <= s.amplitude <= MaxVolume && 0 <= s.position && 0 <= samplePeriodNs
    requires 0 < s.periodNs && i <= j < n && s.position + (n - 1) * samplePeriodNs < s.periodNs
    ensures Render(s, samplePeriodNs, n)[i] <= Render(s, samplePeriodNs, n)[j]
  {
    MulLe(samplePeriodNs, j, n - 1);
    MulLe(samplePeriodNs, i, j);
    assert s.position + j * samplePeriodNs < s.periodNs;
    assert s.position + i * samplePeriodNs < s.periodNs;
    RampPair(s, samplePeriodNs, i, j);
    StoredWithinPeriod(s, samplePeriodNs, n, i);
    StoredWithinPeriod(s, samplePeriodNs, n, j);
  }

  /** A sample written within the first period is the ramp value itself. */
  lemma StoredWithinPeriod(s: GeneratorState, samplePeriodNs: int, n: nat, i: nat)
    requires 0 <= s.amplitude <= MaxVolume && 0 <= s.position && 0 <= samplePeriodNs
    requires 0 < s.periodNs && i < n && s.position + i * samplePeriodNs < s.periodNs
    ensures Render(s, samplePeriodNs, n)[i] == SampleValue(Run(s, samplePeriodNs, i))
  {
    MulLe(samplePeriodNs, 0, i);
    RampWithinPeriod(s, samplePeriodNs, i);
    SampleWithinAmplitude(Run(s, samplePeriodNs, i));
  }

  /** At 16000 samples per second a 1000 Hz tone (period 1000000 ns) climbs
      for 15 samples and wraps exactly once, back to phase 0, on the 16th. */
  lemma OneKilohertzAt16kHz(s: GeneratorState)
    requires s.position == 0 && s.periodNs == 1000000 && s.newPeriodNs == 1000000 && s.playoutTimeUs <= 0
    ensures forall k :: 0 <= k <= 15 ==> Run(s, 62500, k).position == 62500 * k
    ensures Run(s, 62500, 16).position == 0 && Run(s, 62500, 16).periodNs == 1000000
  {
    forall k | 0 <= k <= 15 ensures Run(s, 62500, k).position == 62500 * k {
      RampWithinPeriod(s, 62500, k);
    }
    RampWithinPeriod(s, 62500, 15);
    IndefiniteKeepsPending(s, 62500, 15);
  }

  /** A silenced generator (current and pending period 0) stays silent and
      renders only zeros. */
  lemma {:induction false} SilenceIsStable(s: GeneratorState, samplePeriodNs: int, n: nat)
    requires s.periodNs == 0 && s.newPeriodNs == 0
    ensures Run(s, samplePeriodNs, n).periodNs == 0 && Run(s, samplePeriodNs, n).newPeriodNs == 0
    ensures forall k :: 0 <= k < n ==> Render(s, samplePeriodNs, n)[k] == 0
    decreases n
  {
    forall k | 0 <= k < n ensures Run(s, samplePeriodNs, k).periodNs == 0 {
      SilenceIsStable(s, samplePeriodNs, k);
    }
    if n > 0 {
      SilenceIsStable(s, samplePeriodNs, n - 1);
    }
  }

  /** While silent the phase accumulator is never reduced: it grows by one
      sample period per sample without bound. */
  lemma {:induction false} SilentPositionGrows(s: GeneratorState, samplePeriodNs: int, n: nat)
    requires s.periodNs == 0 && s.newPeriodNs == 0 && 0 <= s.position && 0 <= samplePeriodNs
    ensures Run(s, samplePeriodNs, n).position == s.position + n * samplePeriodNs
    decreases n
  {
    if n > 0 {
      SilentPositionGrows(s, samplePeriodNs, n - 1);
      SilenceIsStable(s, samplePeriodNs, n - 1);
      assert n * samplePeriodNs == (n - 1) * samplePeriodNs + samplePeriodNs;
    }
  }
}
