/** The tone generator of the Synthesizer driver, as values.

    One sample of the generation loop renders a linear ramp from the phase
    accumulator, advances the phase, wraps it (adopting a pending period only
    at a wrap), and counts down an optional playout time that forces silence
    when it expires.  The class in module Drivers is proved against the
    functions of this module; the lemmas here state what the loop promises.
 */
module ToneGenerator {

  const NanosPerSecond := 1000000000
  const NanosPerMicro := 1000
  const MaxVolume := 1023

  /** The fields of a Synthesizer that one sample step reads or writes,
      except the sample period, which is fixed at construction. */
  datatype GeneratorState = GeneratorState(
    amplitude: int,       // volume, 0..1023
    periodNs: int,        // period being rendered; 0 is silence
    newPeriodNs: int,     // period to adopt at the next wrap
    position: int,        // phase accumulator, in ns
    playoutTimeUs: int,   // remaining playout time; <= 0 plays indefinitely
    playoutSoFarNs: int)  // nanoseconds not yet counted as a whole microsecond

  /** What the countdown loop leaves behind. */
  datatype Playout = Playout(soFarNs: int, timeUs: int)

  function Abs(x: int): nat { if x < 0 then -x else x }

  function Max0(x: int): nat { if x < 0 then 0 else x }

  // ---------------------------------------------------------------------
  // The machine arithmetic the loop relies on

  /** Integer division as C performs it: the quotient is truncated toward
      zero, so the remainder takes the sign of the dividend. */
  function TruncDiv(a: int, b: int): (q: int)
    requires b != 0
    ensures Abs(a - b * q) < Abs(b)
    ensures 0 <= a ==> 0 <= a - b * q
    ensures a <= 0 ==> a - b * q <= 0
  {
    var m := Abs(a) / Abs(b);
    TruncDivBracket(a, b, m);
    if (a < 0) == (b < 0) then m else -m
  }

  lemma TruncDivBracket(a: int, b: int, m: int)
    requires b != 0 && m == Abs(a) / Abs(b)
    ensures var q := if (a < 0) == (b < 0) then m else -m;
      Abs(a - b * q) < Abs(b) && (0 <= a ==> 0 <= a - b * q) && (a <= 0 ==> a - b * q <= 0)
  {
    var na, nb := Abs(a), Abs(b);
    var r := na % nb;
    var p := nb * m;
    assert na == p + r && 0 <= r < nb;
    var q := if (a < 0) == (b < 0) then m else -m;
    // b * q carries the sign of a
    if b < 0 {
      assert nb == -b;
      assert b * q == (if a < 0 then -p else p) by { assert b * m == -(nb * m); }
    } else {
      assert nb == b;
      assert b * q == (if a < 0 then -p else p);
    }
  }

  /** The value a 16-bit unsigned sample slot holds after an int is stored
      into it: the int reduced modulo 2^16, so a value past the top wraps
      round rather than saturating. */
  function ToU16(v: int): (r: int)
    ensures 0 <= r < 0x10000
    ensures (v - r) % 0x10000 == 0
    ensures 0 <= v < 0x10000 ==> r == v
  {
    v % 0x10000
  }

  /** The period the frequency setter stores: 1e9 / frequency, truncated by
      the cast to a 32-bit unsigned integer.  The cast is defined only when
      the quotient fits, which is what FrequencyConvertible demands. */
  predicate FrequencyConvertible(frequency: real)
  {
    frequency == 0.0 || (0.0 < frequency && 1000000000.0 < frequency * 4294967296.0)
  }

  function PeriodNsOf(frequency: real): (p: nat)
    requires FrequencyConvertible(frequency)
    ensures p < 0x1_0000_0000
    ensures 0.0 < frequency ==> (p as real) * frequency <= 1000000000.0 < (p as real + 1.0) * frequency
    ensures p == 0 <==> (frequency == 0.0 || 1000000000.0 < frequency)
  {
    if frequency == 0.0 then 0
    else
      PeriodBracket(frequency);
      (1000000000.0 / frequency).Floor
  }

  lemma PeriodBracket(f: real)
    requires FrequencyConvertible(f) && f != 0.0
    ensures var p := (1000000000.0 / f).Floor;
      0 <= p < 0x1_0000_0000
      && (p as real) * f <= 1000000000.0 < (p as real + 1.0) * f
      && (p == 0 <==> 1000000000.0 < f)
  {
    var p := (1000000000.0 / f).Floor;
    ScaledFloor(1000000000.0, f, 4294967296.0);
    if p == 0 {
      assert 1000000000.0 < 1.0 * f;
    } else {
      assert 1.0 * f <= (p as real) * f;
    }
  }

  /** Floor(n / f) is the largest whole number whose multiple of f stays
      within n. */
  lemma ScaledFloor(n: real, f: real, bound: real)
    requires 0.0 < n && 0.0 < f && n < f * bound
    ensures var p := (n / f).Floor;
      0 <= p && (p as real) < bound && (p as real) * f <= n < (p as real + 1.0) * f
  {
    var x := n / f;
    var p := x.Floor;
    assert x * f == n;
    assert 0.0 < x < bound;
    var lo, hi := p as real, p as real + 1.0;
    assert lo <= x < hi;
    ScaleLess(lo, x, f);
    ScaleLess(x, hi, f);
    assert x * f < hi * f;
    assert n < hi * f;
    assert n < (p as real + 1.0) * f;
  }

  lemma ScaleLess(u: real, v: real, f: real)
    requires u <= v && 0.0 < f
    ensures u * f <= v * f && (u < v ==> u * f < v * f)
  {
    assert v * f - u * f == (v - u) * f;
  }

  // ---------------------------------------------------------------------
  // One sample

  /** The ramp sample: amplitude * position / periodNs, or 0 when silent.
      For a non-negative volume and phase it is the whole part of that
      quotient. */
  function SampleValue(s: GeneratorState): (r: int)
    ensures s.periodNs <= 0 ==> r == 0
    ensures 0 < s.periodNs && 0 <= s.amplitude && 0 <= s.position ==>
      0 <= r && s.periodNs * r <= s.amplitude * s.position < s.periodNs * (r + 1)
  {
    if s.periodNs > 0 then
      SampleFloor(s.amplitude, s.position, s.periodNs);
      TruncDiv(s.amplitude * s.position, s.periodNs)
    else 0
  }

  /** A truncated quotient of a non-negative dividend is its floor. */
  lemma FloorQuotient(a: int, b: int, q: int)
    requires 0 <= a && 0 < b && 0 <= a - b * q < b
    ensures 0 <= q && b * q <= a < b * (q + 1)
  {
    assert b * (q + 1) == b * q + b;
    if q < 0 {
      NonPositiveProduct(b, q + 1);
      assert false;
    }
  }

  lemma NonPositiveProduct(b: int, c: int)
    requires 0 < b && c <= 0
    ensures b * c <= 0
  {
    assert b * c == -(b * -c);
  }

  lemma SampleFloor(x: int, y: int, b: int)
    requires 0 < b
    ensures var q := TruncDiv(x * y, b);
      0 <= x && 0 <= y ==> 0 <= q && b * q <= x * y < b * (q + 1)
  {
    if 0 <= x && 0 <= y {
      assert 0 <= x * y;
      FloorQuotient(x * y, b, TruncDiv(x * y, b));
    }
  }

  /** Advance the phase by one sample period and wrap it; a pending period
      is adopted only at a wrap, and then the phase restarts at 0. */
  function Advance(s: GeneratorState, samplePeriodNs: int): (r: GeneratorState)
    ensures r.amplitude == s.amplitude && r.newPeriodNs == s.newPeriodNs
    ensures r.playoutTimeUs == s.playoutTimeUs && r.playoutSoFarNs == s.playoutSoFarNs
    ensures r.periodNs == s.periodNs || (r.periodNs == s.newPeriodNs && r.position == 0)
  {
    var p := s.position + samplePeriodNs;
    if p >= s.periodNs then
      if s.periodNs != s.newPeriodNs then s.(periodNs := s.newPeriodNs, position := 0)
      else s.(position := p - s.periodNs)
    else s.(position := p)
  }

  /** The countdown loop: while more than a microsecond's worth of
      nanoseconds is pending, take one microsecond off the playout time,
      never below 0. */
  function Drain(soFarNs: int, timeUs: int): (r: Playout)
    ensures r.soFarNs <= NanosPerMicro
    ensures NanosPerMicro < soFarNs ==> 0 < r.soFarNs
    ensures 0 <= timeUs ==> 0 <= r.timeUs <= timeUs
    decreases soFarNs
  {
    if soFarNs > NanosPerMicro then
      Drain(soFarNs - NanosPerMicro, if timeUs > 0 then timeUs - 1 else timeUs)
    else Playout(soFarNs, timeUs)
  }

  /** The playout countdown of one sample: nothing happens unless a timed
      tone is playing; when its time reaches 0 the pending period becomes
      silence. */
  function Countdown(s: GeneratorState, samplePeriodNs: int): (r: GeneratorState)
    ensures r.amplitude == s.amplitude && r.periodNs == s.periodNs && r.position == s.position
    ensures s.playoutTimeUs <= 0 ==> r == s
    ensures 0 < s.playoutTimeUs ==> 0 <= r.playoutTimeUs <= s.playoutTimeUs
    ensures r.newPeriodNs != s.newPeriodNs ==> r.newPeriodNs == 0 && r.playoutTimeUs == 0 < s.playoutTimeUs
  {
    if s.playoutTimeUs > 0 then
      var r := Drain(s.playoutSoFarNs + samplePeriodNs, s.playoutTimeUs);
      s.(playoutSoFarNs := r.soFarNs, playoutTimeUs := r.timeUs,
         newPeriodNs := if r.timeUs == 0 then 0 else s.newPeriodNs)
    else s
  }

  /** The state after one sample: the volume is kept, the period rendered
      next is the current or the requested one, and a request is only ever
      replaced by silence. */
  function Next(s: GeneratorState, samplePeriodNs: int): (r: GeneratorState)
    ensures r.amplitude == s.amplitude
    ensures r.periodNs == s.periodNs || r.periodNs == s.newPeriodNs
    ensures r.newPeriodNs == s.newPeriodNs || r.newPeriodNs == 0
    ensures 0 <= s.playoutTimeUs ==> 0 <= r.playoutTimeUs <= s.playoutTimeUs
    ensures s.playoutTimeUs < 0 ==> r.playoutTimeUs == s.playoutTimeUs
  {
    Countdown(Advance(s, samplePeriodNs), samplePeriodNs)
  }

  /** The state after n samples: the volume is kept, and the playout time
      never rises (a negative one, an indefinite tone, never changes). */
  function Run(s: GeneratorState, samplePeriodNs: int, n: nat): (r: GeneratorState)
    ensures r.amplitude == s.amplitude
    ensures 0 <= s.playoutTimeUs ==> 0 <= r.playoutTimeUs <= s.playoutTimeUs
    ensures s.playoutTimeUs < 0 ==> r.playoutTimeUs == s.playoutTimeUs
    decreases n
  {
    if n == 0 then s else Next(Run(s, samplePeriodNs, n - 1), samplePeriodNs)
  }

  /** The n samples written from state s: the k-th is the ramp value of the
      state reached after k samples, stored as 16 bits. */
  function Render(s: GeneratorState, samplePeriodNs: int, n: nat): (r: seq<int>)
    ensures |r| == n
    ensures forall k :: 0 <= k < n ==> r[k] == ToU16(SampleValue(Run(s, samplePeriodNs, k)))
    decreases n
  {
    if n == 0 then []
    else Render(s, samplePeriodNs, n - 1) + [ToU16(SampleValue(Run(s, samplePeriodNs, n - 1)))]
  }
}
