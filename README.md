# Synthesizer tone generator, modelled in Dafny

This project models the tone generator of the CODAL `Synthesizer` driver
(`source/drivers/Synthesizer.cpp`). The generator is a phase accumulator that
renders a linear ramp (sawtooth) at the current period and volume. A change of
frequency is held as a *pending* period and adopted only when the phase wraps,
so a tone never changes mid-ramp. An optional playout time counts down in
microseconds, sample by sample, and when it runs out the pending period
becomes 0 (silence), which again takes effect at the next wrap.

The project has three files:

- `tone.dfy`, module `ToneGenerator`: the state a sample step works on, as a
  value (`GeneratorState`), and one sample as functions. `SampleValue` is the
  ramp sample. `Advance` is the phase step and wrap. `Drain` is the inner
  countdown loop and `Countdown` the timed-tone bookkeeping around it. `Next`
  is one sample, `Run` is n samples, and `Render` gives the samples written.
  It also holds the C arithmetic the loop relies on (`TruncDiv`, the store
  into a 16-bit slot `ToU16`) and the frequency-to-period conversion
  `PeriodNsOf`.
- `tone_properties.dfy`, module `ToneProperties`: the properties of the loop,
  proved over that value model.
- `synthesizer.dfy`, module `Drivers`: the `Synthesizer` class with the
  source's fields. It has the constructor, the two frequency setters,
  `SetVolume`, `SetBufferSize`, `Step` (one iteration of the sample loop,
  split into `AdvancePhase` and `CountDownPlayout`, which holds the inner
  `while` countdown), `FillBuffer` (one pass of the outer
  loop: a fresh buffer filled in place) and `Pull`. Every method that changes
  the state states its new state in terms of the old one and of the
  `ToneGenerator` functions, and keeps the object invariant `Valid()`.

Behaviour as the code has it, in places where the component's intended
design reads differently:

- The countdown loop runs `while (playoutSoFarNs > 1000)`, with a strict
  comparison. So exactly 1000 ns pending is not yet a microsecond, and the
  remainder after the loop can be exactly 1000: it lies in [0, 1000], not [0, 1000). A timed tone of
  T microseconds therefore expires at the first sample by which *strictly
  more* than 1000·T ns have elapsed. At 16000 samples per second a 500 ms
  tone expires at sample 8001, not 8000 (`HalfSecondAt16kHz`).
- The period is `1e9 / frequency` *truncated* by the cast to `uint32_t`, not
  rounded. A frequency above 1 GHz therefore yields period 0, so "period 0
  exactly when the frequency is 0" holds only below 1 GHz (`PeriodNsOf`).
- A negative duration gives a negative playout time. Such a tone is never
  counted down, so it plays indefinitely, like a duration of 0.
- When the period is 0 the wrap test `position >= periodNs` holds on every
  sample. A pending tone therefore starts at the very next sample
  (`ToneStartsAfterSilence`), while a silent generator keeps adding to
  `position` without bound (`SilentPositionGrows`).
- The phase stays inside the period only while neither period is shorter
  than one sample period. Otherwise a wrap subtracts the period only once,
  so the phase grows by the difference at every wrap
  (`FastTonePositionGrows`). It eventually passes the period, and a sample
  can then exceed the volume (`PhaseBoundNeedsSlowTone`).
- For such a tone the ramp value keeps growing. Once it passes 65535, the
  store into the 16-bit slot wraps it round. A 30000 ns period (about
  33.3 kHz) at 16000 samples per second writes 959 at sample 60, where the
  ramp value is 66495 (`FastToneSampleWraps`). At that sample
  amplitude·position is still below 2^31. With a faster-growing phase the
  product can overflow a 32-bit field before the 16-bit wrap is reached,
  and overflow is not modelled.

## Model

| member | source | states |
|---|---|---|
| `ToneGenerator.TruncDiv` | source/drivers/Synthesizer.cpp:76 | the `/` of the sample expression truncates toward zero: the remainder is smaller than the divisor in magnitude and has the sign of the dividend |
| `ToneGenerator.ToU16` | source/drivers/Synthesizer.cpp:72-76 | storing through the `uint16_t` pointer reduces the value modulo 65536: the stored value lies in [0, 65536) and differs from the int by a multiple of 65536, so a value past the top wraps round (it does not saturate), and a value already in range is kept |
| `ToneGenerator.PeriodNsOf` | source/drivers/Synthesizer.cpp:50 | the stored period is the largest whole number p with p·f ≤ 1e9, fits 32 bits, and is 0 exactly when f = 0 or f > 1e9 |
| `ToneGenerator.SampleValue` | source/drivers/Synthesizer.cpp:76 | the ramp sample is 0 when the period is 0 or less; otherwise, for a non-negative volume and phase, it is the whole part of amplitude·position / period (p·r ≤ a·x < p·(r+1)) |
| `ToneGenerator.Advance` | source/drivers/Synthesizer.cpp:77-87 | the phase step touches only the phase and the period: the volume, the pending period and both playout fields are kept, and the period either stays or becomes the pending one with the phase at 0 |
| `ToneGenerator.Drain` | source/drivers/Synthesizer.cpp:92-97 | the countdown loop leaves at most 1000 ns pending, more than 0 if it ran at all, and never raises the playout time or drives it below 0 |
| `ToneGenerator.Countdown` | source/drivers/Synthesizer.cpp:89-101 | the countdown keeps the volume, period and phase; an indefinite tone (playout time ≤ 0) is left exactly as it was; a timed tone's playout time stays in [0, T]; the pending period changes only to 0, and only when a running timer reached 0 |
| `ToneGenerator.Next` | source/drivers/Synthesizer.cpp:74-101 | one sample keeps the volume, renders next either the current or the requested period, replaces a request only by silence, and never raises the playout time (nor changes a negative one) |
| `ToneGenerator.Run` | source/drivers/Synthesizer.cpp:74-104 | over any number of samples the volume is kept and the playout time never rises, never drops below 0 from a non-negative start, and never changes when negative |
| `ToneGenerator.Render` | source/drivers/Synthesizer.cpp:74-104 | n samples are written, and the k-th is the 16-bit ramp value of the state reached after k steps |
| `Drivers.SampleCount` | source/drivers/Synthesizer.cpp:70-74 | a buffer of `size` bytes holds `size/2` 16-bit samples (the largest n with 2n ≤ size), and a buffer of non-positive size holds none |
| `Drivers.Synthesizer.constructor` | source/drivers/Synthesizer.cpp:19-28 | buffer size 512, volume 1023, current and pending period 0, phase 0, no playout time, sample period 1e9 / sampleRate; the object invariant holds |
| `Drivers.Synthesizer.SetFrequency` | source/drivers/Synthesizer.cpp:37-40 | the same as `SetFrequencyFor` with a duration of 0, so the tone plays indefinitely |
| `Drivers.Synthesizer.SetFrequencyFor` | source/drivers/Synthesizer.cpp:48-53 | sets only the pending period, `playoutTimeUs = 1000 * period` and `playoutSoFarNs = 0`; the period being rendered, the phase, the volume and the buffer are unchanged, so the switch is deferred |
| `Drivers.Synthesizer.SetVolume` | source/drivers/Synthesizer.cpp:114-122 | succeeds exactly when 0 ≤ v ≤ 1023 and then sets the amplitude to v; otherwise returns InvalidParameter with the amplitude unchanged; nothing else changes either way |
| `Drivers.Synthesizer.SetBufferSize` | source/drivers/Synthesizer.cpp:129-136 | fails exactly when the current size is ≤ 0, never checks the new size, stores it on success, and changes nothing else |
| `Drivers.Synthesizer.Step` | source/drivers/Synthesizer.cpp:74-104 | returns the 16-bit ramp sample of the state before the step and moves the state to `Next` of it; the object invariant is kept |
| `Drivers.Synthesizer.AdvancePhase` | source/drivers/Synthesizer.cpp:77-87 | moves the state to `Advance` of it: phase advanced and wrapped, pending period adopted only at a wrap; nothing else changes |
| `Drivers.Synthesizer.CountDownPlayout` | source/drivers/Synthesizer.cpp:89-101 | moves the state to `Countdown` of it; the inner `while` loop is proved against `Drain`; the remainder stays within [0, 1000] |
| `Drivers.Synthesizer.FillBuffer` | source/drivers/Synthesizer.cpp:70-104 | stores a fresh buffer of `bufferSize/2` samples whose contents are `Render` of the state before the pass, and leaves the state at `Run` of that many steps |
| `Drivers.Synthesizer.Pull` | source/drivers/Synthesizer.cpp:141-144 | returns the stored buffer itself and changes nothing |
| `Drivers.Synthesizer.PullTwice` | source/drivers/Synthesizer.cpp:141-144 | two pulls with no fill in between return the same buffer with identical contents |
| `ToneProperties.SampleWithinAmplitude` | source/drivers/Synthesizer.cpp:76 | with the phase inside the period, the sample lies in [0, amplitude], and strictly below a non-zero amplitude; it is 0 when silent or at phase 0, and fits its 16-bit slot unchanged at volumes up to 1023 |
| `ToneProperties.RampNonDecreasing` | source/drivers/Synthesizer.cpp:76-87 | a step short of the wrap keeps the period, advances the phase by one sample period, and never lowers the next sample |
| `ToneProperties.WrapRule` | source/drivers/Synthesizer.cpp:77-87 | the period changes only at a wrap and only to the pending period, with the phase reset to 0; a pending change is always adopted at a wrap; a wrap with nothing pending subtracts the period exactly once; no wrap means the phase just advances |
| `ToneProperties.ToneStartsAfterSilence` | source/drivers/Synthesizer.cpp:77-86 | from silence, a pending period is adopted at the next sample, from phase 0 |
| `ToneProperties.NextKeepsPhase` | source/drivers/Synthesizer.cpp:74-101 | when neither period is shorter than a sample period, a step keeps the phase in [0, period) and keeps the volume |
| `ToneProperties.RunKeepsPhase` | source/drivers/Synthesizer.cpp:74-104 | the same over any number of steps |
| `ToneProperties.RenderWithinAmplitude` | source/drivers/Synthesizer.cpp:74-104 | every sample of a buffer rendered from such a state is the exact ramp value and lies in [0, amplitude] |
| `ToneProperties.PhaseBoundNeedsSlowTone` | source/drivers/Synthesizer.cpp:76-87 | with a 10 ns period and a 25 ns sample period, one subtraction leaves the phase at 15 and the next sample is 1534, above volume 1023 |
| `ToneProperties.FastTonePositionGrows` | source/drivers/Synthesizer.cpp:77-87 | a steady tone whose period is at most one sample period subtracts it once per sample, so the phase grows by (sample period − period) per sample and the period is kept |
| `ToneProperties.FastToneSampleWraps` | source/drivers/Synthesizer.cpp:72-87 | a 30000 ns period at 62500 ns per sample reaches ramp value 66495 at sample 60, which its 16-bit slot holds as 959, while amplitude·position is still below 2^31 |
| `ToneProperties.TimerStep` | source/drivers/Synthesizer.cpp:89-101 | an indefinite tone's step leaves the playout time, remainder and pending period alone; a timed step never raises the playout time or drops it below 0, leaves at most 1000 ns pending, and forces silence pending when the time reaches 0 |
| `ToneProperties.ExpiryDefersSilence` | source/drivers/Synthesizer.cpp:79-101 | a step renders period 0 afterwards only if it was already silent or silence was already pending, so an expiry does not silence its own step |
| `ToneProperties.SilenceCommitsAtWrap` | source/drivers/Synthesizer.cpp:79-86 | once silence is pending, the period becomes 0 exactly at the next wrap |
| `ToneProperties.PendingSilenceStays` | source/drivers/Synthesizer.cpp:77-101 | once silence is pending (requested period 0) it stays pending over any number of samples |
| `ToneProperties.SilenceArrives` | source/drivers/Synthesizer.cpp:77-101 | with silence pending, every state before the first sample k whose advance reaches the period keeps the old period, and the state after sample k has period 0 with silence still pending |
| `ToneProperties.SilenceEventually` | source/drivers/Synthesizer.cpp:74-104 | from that sample k on, every state is silent and every sample written is 0 (a frequency of 0 or an expired timer silences everything after the next wrap) |
| `ToneProperties.DrainClosedForm` | source/drivers/Synthesizer.cpp:92-97 | the countdown loop takes ⌊(ns−1)/1000⌋ microseconds off (none at or below 1000 ns), clamped at 0, and leaves the rest pending |
| `ToneProperties.DrainedAdds` | source/drivers/Synthesizer.cpp:91-97 | draining in two steps takes off as many microseconds, and leaves the same remainder, as draining the sum at once |
| `ToneProperties.PlayoutStep` | source/drivers/Synthesizer.cpp:89-101 | one step of a timed tone carries the closed form of the countdown from y to y + samplePeriodNs elapsed nanoseconds |
| `ToneProperties.PlayoutElapsed` | source/drivers/Synthesizer.cpp:89-101 | after n samples the playout time is T minus the microseconds drained from all nanoseconds elapsed, clamped at 0; while it is running the remainder is the drain's; at 0 silence is pending |
| `ToneProperties.TimedToneExpiry` | source/drivers/Synthesizer.cpp:89-101 | a timed tone's playout time is 0 after n samples exactly when more than 1000·T ns have elapsed, and silence is then pending |
| `ToneProperties.HalfSecondAt16kHz` | source/drivers/Synthesizer.cpp:89-101 | a 500 ms tone at 62500 ns per sample has 1 µs left after 8000 samples and expires, with silence pending, at sample 8001 |
| `ToneProperties.IndefiniteKeepsPending` | source/drivers/Synthesizer.cpp:89-101 | over any number of steps, an indefinite tone keeps its playout fields, its pending period and its volume |
| `ToneProperties.RampWithinPeriod` | source/drivers/Synthesizer.cpp:77-87 | within one period the phase after k samples is the start phase plus k sample periods, with the period and volume unchanged |
| `ToneProperties.RampRises` | source/drivers/Synthesizer.cpp:74-87 | the samples rendered within one period are non-decreasing |
| `ToneProperties.OneKilohertzAt16kHz` | source/drivers/Synthesizer.cpp:77-87 | a 1000000 ns period sampled every 62500 ns climbs for 15 samples and wraps once, back to phase 0 with the period kept, on the 16th |
| `ToneProperties.SilenceIsStable` | source/drivers/Synthesizer.cpp:76-100 | with current and pending period 0, the generator stays silent and renders only zeros |
| `ToneProperties.SilentPositionGrows` | source/drivers/Synthesizer.cpp:77-81 | while silent, the phase grows by one sample period per sample and is never reduced |

## Left out

- The fiber launch (`launching`, `begin_playback`, `create_fiber`) is scheduler plumbing. The generation loop is modelled as calls to `Step` and `FillBuffer`.
- The endless `while(1)` around the buffer fill and the `output.pullRequest()` notification are left out. The downstream sink is outside this model; one pass of the loop is `FillBuffer`.
- The empty destructor has no behaviour to model.
- Concurrent, unsynchronised writes from other contexts to the shared fields are left out. Setters and steps are modelled as sequential calls.
- The frequency is a mathematical `real`, not an IEEE float divided in double precision. Rounding of `1000000000.0 / frequency` near a whole number may differ by one nanosecond. The conversion of the quotient to `uint32_t` is undefined in C++ when its truncated value does not fit: that is a frequency in [−1e9, 0), or a positive frequency of at most about 0.2328 Hz. Such frequencies are excluded by `FrequencyConvertible`. A frequency below −1e9 gives a quotient in (−1, 0), which converts to 0 and stores period 0 (silence); it is excluded too, so the model does not cover that path.
- The field widths are declared in `Synthesizer.h`, which is not part of this model. All fields are mathematical integers, so overflow is not modelled: of `1000 * period`, of `amplitude * position`, of `position` while silent, or of a period stored in a signed field.
- `ManagedBuffer` is not part of this model. The buffer is a fresh `array<int>` of `bufferSize/2` 16-bit samples, and a size of 0 or less is taken to give an empty buffer. Its byte layout (endianness, an odd trailing byte) and reference counting are not modelled.
- A sample rate of 0 or less is excluded by the constructor's precondition: C's division by 0 is undefined, and a negative rate is not meaningful.
- The buffer handle that `Pull` returns is the stored array itself, standing in for the reference-counted handle. Each fill allocates a fresh array, so a sink still holding an older buffer is not affected by a later fill.
