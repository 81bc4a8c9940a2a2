/** Sine synthesis: how many samples are produced and what each one is,
    given the value of the sine function as an oracle. */
module Synthesis {
  import opened Ints
  import opened WaveTypes
  import opened Validation

  type SineValue = x: real | -1.0 <= x <= 1.0

  /** The sine function measured in turns: x ↦ sin(2πx). Only its range
      is known; its values come from the C library. */
  type SineOracle = real -> SineValue

  /** `static_cast<size_t>(sample_rate * duration)`. */
  function TotalSamples(p: WaveParams): (n: nat)
    requires Valid(p)
    ensures n as real <= p.sampleRate as real * p.duration < n as real + 1.0
  {
    Trunc(p.sampleRate as real * p.duration)
  }

  /** `static_cast<int16_t>(amplitude * 32767.0)`: the peak sample value. */
  function MaxAmplitude(p: WaveParams): (m: int16)
    requires Valid(p)
    ensures 0 <= m <= 32767
    ensures m as real <= p.amplitude * 32767.0 < m as real + 1.0
  {
    Trunc(p.amplitude * 32767.0)
  }

  /** The argument of sample i, in turns: frequency times the sample's time
      `i * (1 / sample_rate)`. */
  function Phase(p: WaveParams, i: nat): (x: real)
    requires Valid(p)
    ensures x >= 0.0
    ensures i == 0 ==> x == 0.0
    ensures x < p.frequency <==> i < p.sampleRate
  {
    p.frequency * (i as real / p.sampleRate as real)
  }

  /** Sample i: the sine value scaled by the peak and truncated to `int16_t`. */
  function SineSample(p: WaveParams, sine: SineOracle, i: nat): (s: int16)
    requires Valid(p)
    ensures -MaxAmplitude(p) <= s <= MaxAmplitude(p)
  {
    Scale(sine(Phase(p, i)), MaxAmplitude(p))
  }

  /** `static_cast<int16_t>(sine_value * max_amplitude)`: never beyond the peak. */
  function Scale(v: SineValue, m: int16): (s: int16)
    requires m >= 0
    ensures -m <= s <= m
  {
    var x := Product(v, m as real);
    TruncBounded(x, m);
    Trunc(x)
  }

  /** A sine value times a peak lies within the peak. */
  function Product(v: SineValue, m: real): (x: real)
    requires m >= 0.0
    ensures -m <= x <= m
  {
    ScaleBounded(v, m);
    v * m
  }

  lemma ScaleBounded(v: SineValue, m: real)
    requires m >= 0.0
    ensures -m <= v * m <= m
  {
    if v >= 0.0 {
      assert v * m <= 1.0 * m;
    } else {
      assert (-v) * m <= 1.0 * m;
    }
  }

  /** The first `count` samples of the tone. */
  function SineBuffer(p: WaveParams, sine: SineOracle, count: nat): (pcm: seq<int16>)
    requires Valid(p)
    ensures |pcm| == count
  {
    seq(count, i requires 0 <= i < count => SineSample(p, sine, i))
  }

  /** Fills a buffer of `count` samples, one index at a time. */
  method Synthesize(p: WaveParams, sine: SineOracle, count: nat) returns (pcm: seq<int16>)
    requires Valid(p)
    ensures |pcm| == count
    ensures forall i :: 0 <= i < count ==> pcm[i] == SineSample(p, sine, i)
  {
    var data := new int16[count];
    var i := 0;
    while i < count
      invariant 0 <= i <= count
      invariant forall k :: 0 <= k < i ==> data[k] == SineSample(p, sine, k)
    {
      data[i] := SineSample(p, sine, i);
      i := i + 1;
    }
    pcm := data[..];
  }

  /** The whole tone: `sample_rate * duration` samples, truncated. */
  method GenerateSineWave(p: WaveParams, sine: SineOracle) returns (pcm: seq<int16>)
    requires Valid(p)
    ensures pcm == SineBuffer(p, sine, TotalSamples(p))
  {
    pcm := Synthesize(p, sine, TotalSamples(p));
  }

  /** Every sample lies within the peak, and the peak within the 16-bit range. */
  lemma SamplesWithinPeak(p: WaveParams, sine: SineOracle, count: nat)
    requires Valid(p)
    ensures MaxAmplitude(p) <= 32767
    ensures forall i :: 0 <= i < count ==>
              -MaxAmplitude(p) <= SineBuffer(p, sine, count)[i] <= MaxAmplitude(p)
  {
    var pcm := SineBuffer(p, sine, count);
    forall i | 0 <= i < count
      ensures -MaxAmplitude(p) <= pcm[i] <= MaxAmplitude(p)
    {
      assert pcm[i] == SineSample(p, sine, i);
    }
  }

  /** An amplitude too small to reach one quantisation step gives silence. */
  lemma {:induction false} QuietToneIsSilent(p: WaveParams, sine: SineOracle, count: nat)
    requires Valid(p) && p.amplitude * 32767.0 < 1.0
    ensures forall i :: 0 <= i < count ==> SineBuffer(p, sine, count)[i] == 0
  {
    assert MaxAmplitude(p) == 0;
  }

  /** With sin(0) = 0 the tone starts at zero. */
  lemma FirstSampleIsZero(p: WaveParams, sine: SineOracle)
    requires Valid(p) && sine(0.0) == 0.0
    ensures SineSample(p, sine, 0) == 0
  {
    assert Phase(p, 0) == 0.0;
  }

  /** When a whole number of samples spans one period, the tone repeats with
      that period (for a sine oracle that is itself periodic). */
  lemma {:induction false} TonePeriodic(p: WaveParams, sine: SineOracle, period: nat, i: nat)
    requires Valid(p)
    requires period as real * p.frequency == p.sampleRate as real
    requires forall x: real :: sine(x + 1.0) == sine(x)
    ensures SineSample(p, sine, i + period) == SineSample(p, sine, i)
  {
    PhaseAdvance(p, period, i);
    assert sine(Phase(p, i + period)) == sine(Phase(p, i) + 1.0);
  }

  /** Advancing by `period` samples, when period · frequency equals the
      sample rate, advances the phase by exactly one turn. */
  lemma PhaseAdvance(p: WaveParams, period: nat, i: nat)
    requires Valid(p)
    requires period as real * p.frequency == p.sampleRate as real
    ensures Phase(p, i + period) == Phase(p, i) + 1.0
  {
    var sr := p.sampleRate as real;
    var f := p.frequency;
    var x := i as real / sr;
    var y := period as real / sr;
    assert (i + period) as real == i as real + period as real;
    DivideSum(i as real, period as real, sr);
    assert Phase(p, i + period) == f * (x + y);
    Distribute(f, x, y);
    MultiplyQuotient(f, period as real, sr);
    SelfQuotient(sr);
    assert f * y == 1.0;
  }

  /** 8000 Hz for one millisecond is 8 samples. */
  lemma EightMillisecondSamples(p: WaveParams)
    requires p.sampleRate == 8000 && p.frequency == 1000.0 && p.duration == 0.001
    requires p.amplitude == 1.0
    ensures Valid(p) && TotalSamples(p) == 8
  {
  }
}
