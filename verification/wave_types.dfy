/** The value types declared by the WaveGenerator class. */
module WaveTypes {
  import opened Ints

  /** The closed set of waveform kinds. */
  datatype WaveType = Sine | WhiteNoise

  /** Generation parameters. The three `double` fields are modelled as
      exact reals. */
  datatype WaveParams = WaveParams(
    sampleRate: uint32,  // samples per second
    frequency: real,     // Hz
    duration: real,      // seconds
    amplitude: real,     // fraction of full scale, 0.0 to 1.0
    waveType: WaveType)

  /** The array name the one-cycle writer uses when its caller gives none. */
  const DefaultCycleArrayName: string := "sine_wave_data"
}
