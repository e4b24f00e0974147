/** The Synthesizer driver as an object: the constructor, the frequency,
    volume and buffer-size setters, one sample of the generation loop, one
    buffer fill, and pull.  Each method is proved against the value model of
    module ToneGenerator. */
module Drivers {
  import opened ToneGenerator

  /** The two error codes the setters return. */
  datatype Status = DeviceOk | DeviceInvalidParameter

  const DefaultBufferSize := 512

  /** The number of 16-bit samples a buffer of `size` bytes holds; a buffer
      of non-positive size is empty. */
  function SampleCount(size: int): (n: nat)
    ensures 0 < size ==> 2 * n <= size < 2 * n + 2
    ensures size <= 1 ==> n == 0
  {
    if size > 0 then size / 2 else 0
  }

  class Synthesizer {
    const sampleRate: int
    const samplePeriodNs: int
    var bufferSize: int
    var amplitude: int
    var periodNs: int
    var newPeriodNs: int
    var position: int
    var playoutTimeUs: int
    var playoutSoFarNs: int
    var buffer: array<int>   // the most recently filled buffer, 16-bit samples

    /** The object invariant: the sample period is derived from a positive
        sample rate, the volume is in range, the periods and the phase are
        non-negative, and the countdown remainder is at most 1000 ns. */
    ghost predicate Valid()
      reads this
    {
      0 < sampleRate && samplePeriodNs == NanosPerSecond / sampleRate
      && 0 <= amplitude <= MaxVolume
      && 0 <= periodNs && 0 <= newPeriodNs && 0 <= position
      && 0 <= playoutSoFarNs <= NanosPerMicro
    }

    /** The fields one sample step works on, as a value. */
    function State(): GeneratorState
      reads this
    {
      GeneratorState(amplitude, periodNs, newPeriodNs, position, playoutTimeUs, playoutSoFarNs)
    }

    /** A silent synthesizer at full volume with 512-byte buffers and no
        buffer filled yet. */
    constructor (sampleRate: int)
      requires 0 < sampleRate
      ensures Valid() && fresh(buffer) && buffer.Length == 0
      ensures this.sampleRate == sampleRate && samplePeriodNs == NanosPerSecond / sampleRate
      ensures bufferSize == DefaultBufferSize
      ensures State() == GeneratorState(MaxVolume, 0, 0, 0, 0, 0)
    {
      this.sampleRate := sampleRate;
      bufferSize := DefaultBufferSize;
      position := 0;
      samplePeriodNs := NanosPerSecond / sampleRate;
      amplitude, periodNs, newPeriodNs, playoutTimeUs, playoutSoFarNs := 0, 0, 0, 0, 0;
      buffer := new int[0];
      new;
      SetFrequency(0.0);
      var _ := SetVolume(MaxVolume);
      periodNs := newPeriodNs;
    }

    /** Play a frequency indefinitely. */
    method SetFrequency(frequency: real)
      requires Valid() && FrequencyConvertible(frequency)
      modifies this
      ensures Valid()
      ensures State() == old(State()).(newPeriodNs := PeriodNsOf(frequency), playoutTimeUs := 0, playoutSoFarNs := 0)
      ensures bufferSize == old(bufferSize) && buffer == old(buffer)
    {
      SetFrequencyFor(frequency, 0);
    }

    /** Request a frequency for periodMs milliseconds (0 or less: for ever).
        Only the pending period and the countdown change: the period being
        rendered and the phase are left to the next wrap. */
    method SetFrequencyFor(frequency: real, periodMs: int)
      requires Valid() && FrequencyConvertible(frequency)
      modifies this
      ensures Valid()
      ensures State() == old(State()).(newPeriodNs := PeriodNsOf(frequency),
                                       playoutTimeUs := 1000 * periodMs, playoutSoFarNs := 0)
      ensures bufferSize == old(bufferSize) && buffer == old(buffer)
    {
      newPeriodNs := if frequency == 0.0 then 0 else PeriodNsOf(frequency);
      playoutTimeUs := 1000 * periodMs;
      playoutSoFarNs := 0;
    }

    /** Set the volume: a value outside 0..1023 is refused and changes
        nothing; any other value becomes the amplitude. */
    method SetVolume(volume: int) returns (status: Status)
      modifies this
      ensures status == DeviceOk <==> 0 <= volume <= MaxVolume
      ensures amplitude == (if status == DeviceOk then volume else old(amplitude))
      ensures periodNs == old(periodNs) && newPeriodNs == old(newPeriodNs) && position == old(position)
      ensures playoutTimeUs == old(playoutTimeUs) && playoutSoFarNs == old(playoutSoFarNs)
      ensures bufferSize == old(bufferSize) && buffer == old(buffer)
      ensures old(Valid()) ==> Valid()
    {
      if volume < 0 || volume > MaxVolume {
        return DeviceInvalidParameter;
      }
      amplitude := volume;
      return DeviceOk;
    }

    /** Set the size of the buffers filled from now on.  The check is on the
        current size, not the new one: the call is refused only when the
        current size is not positive, and any new size is stored. */
    method SetBufferSize(size: int) returns (status: Status)
      modifies this
      ensures status == DeviceOk <==> 0 < old(bufferSize)
      ensures bufferSize == (if status == DeviceOk then size else old(bufferSize))
      ensures State() == old(State()) && buffer == old(buffer)
    {
      if bufferSize <= 0 {
        return DeviceInvalidParameter;
      }
      bufferSize := size;
      return DeviceOk;
    }

    /** One sample of the generation loop: returns the 16-bit sample of the
        current state and moves to the next state. */
    method Step() returns (sample: int)
      requires Valid()
      modifies this
      ensures Valid()
      ensures sample == ToU16(SampleValue(old(State())))
      ensures State() == Next(old(State()), samplePeriodNs)
      ensures bufferSize == old(bufferSize) && buffer == old(buffer)
    {
      var value := if periodNs > 0 then TruncDiv(amplitude * position, periodNs) else 0;
      sample := ToU16(value);
      AdvancePhase();
      CountDownPlayout();
    }

    /** Advance the phase by one sample period and wrap it, adopting the
        pending period (and restarting the phase) only at a wrap. */
    method AdvancePhase()
      requires Valid()
      modifies this
      ensures Valid()
      ensures State() == Advance(old(State()), samplePeriodNs)
      ensures bufferSize == old(bufferSize) && buffer == old(buffer)
    {
      position := position + samplePeriodNs;

      if position >= periodNs {
        position := position - periodNs;
        if periodNs != newPeriodNs {
          periodNs := newPeriodNs;
          position := 0;
        }
      }
    }

    /** Count a timed tone down by one sample period, in whole microseconds,
        and make silence pending when its time runs out. */
    method CountDownPlayout()
      requires Valid()
      modifies this
      ensures Valid()
      ensures State() == Countdown(old(State()), samplePeriodNs)
      ensures bufferSize == old(bufferSize) && buffer == old(buffer)
    {
      if playoutTimeUs > 0 {
        playoutSoFarNs := playoutSoFarNs + samplePeriodNs;
        ghost var drained := Drain(playoutSoFarNs, playoutTimeUs);
        while playoutSoFarNs > NanosPerMicro
          invariant Drain(playoutSoFarNs, playoutTimeUs) == drained
          invariant State() == old(State()).(playoutSoFarNs := playoutSoFarNs, playoutTimeUs := playoutTimeUs)
          invariant bufferSize == old(bufferSize) && buffer == old(buffer)
          decreases playoutSoFarNs
        {
          playoutSoFarNs := playoutSoFarNs - NanosPerMicro;
          if playoutTimeUs > 0 {
            playoutTimeUs := playoutTimeUs - 1;
          }
        }

        if playoutTimeUs == 0 {
          newPeriodNs := 0;
        }
      }
    }

    /** One pass of the generation loop: a fresh buffer of the current size
        is allocated and stored, and each of its 16-bit slots is filled by
        one sample step. */
    method FillBuffer()
      requires Valid()
      modifies this
      ensures Valid() && fresh(buffer)
      ensures bufferSize == old(bufferSize)
      ensures buffer.Length == SampleCount(bufferSize)
      ensures buffer[..] == Render(old(State()), samplePeriodNs, buffer.Length)
      ensures State() == Run(old(State()), samplePeriodNs, buffer.Length)
    {
      var samples := new int[SampleCount(bufferSize)];
      buffer := samples;
      ghost var start := State();
      var i := 0;
      while i < samples.Length
        invariant 0 <= i <= samples.Length
        invariant Valid() && buffer == samples && bufferSize == old(bufferSize)
        invariant samples[..i] == Render(start, samplePeriodNs, i)
        invariant State() == Run(start, samplePeriodNs, i)
      {
        var sample := Step();
        samples[i] := sample;
        assert samples[..i + 1] == samples[..i] + [sample];
        i := i + 1;
      }
      assert samples[..] == samples[..i];
    }

    /** The most recently filled buffer, handed out as it is. */
    method Pull() returns (b: array<int>)
      ensures b == buffer
    {
      return buffer;
    }

    /** Two pulls with no fill in between yield the same buffer with the
        same contents. */
    method PullTwice() returns (first: array<int>, second: array<int>)
      ensures first == second == buffer && first[..] == second[..]
    {
      first := Pull();
      second := Pull();
    }
  }
}
