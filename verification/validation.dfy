/** The parameter check that the program runs before generating anything. */
module Validation {
  import opened Wrappers
  import opened WaveTypes

  /** Which check rejected the parameters (the message printed on the error stream). */
  datatype ParamError = SampleRateZero | FrequencyNotPositive | DurationNotPositive | AmplitudeOutOfRange

  /** The parameters the generator is built to handle. */
  predicate Valid(p: WaveParams)
  {
    && p.sampleRate > 0
    && p.frequency > 0.0
    && p.duration > 0.0
    && 0.0 <= p.amplitude <= 1.0
  }

  /** Runs the checks in order and reports the first one that fails;
      `None` is the `true` result. */
  function ValidateParams(p: WaveParams): (r: Option<ParamError>)
    ensures r.None? <==> Valid(p)
    ensures r == Some(SampleRateZero) <==> p.sampleRate == 0
    ensures r == Some(FrequencyNotPositive) <==> p.sampleRate != 0 && p.frequency <= 0.0
    ensures r == Some(DurationNotPositive) <==>
              p.sampleRate != 0 && p.frequency > 0.0 && p.duration <= 0.0
    ensures r == Some(AmplitudeOutOfRange) <==>
              p.sampleRate != 0 && p.frequency > 0.0 && p.duration > 0.0
              && (p.amplitude < 0.0 || p.amplitude > 1.0)
  {
    if p.sampleRate == 0 then Some(SampleRateZero)
    else if p.frequency <= 0.0 then Some(FrequencyNotPositive)
    else if p.duration <= 0.0 then Some(DurationNotPositive)
    else if p.amplitude < 0.0 || p.amplitude > 1.0 then Some(AmplitudeOutOfRange)
    else None
  }

  /** The kind of waveform plays no part in the check. */
  lemma ValidationIgnoresWaveType(p: WaveParams, t: WaveType)
    ensures ValidateParams(p.(waveType := t)) == ValidateParams(p)
  {
  }
}
