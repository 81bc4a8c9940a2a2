/** The command-line driver: argument count, option flags, numeric
    arguments, positional amplitude and output file, validation, and the
    files written from them. */
module Cli {
  import opened Wrappers
  import opened Ints
  import opened Decimal
  import opened WaveTypes
  import opened Validation
  import opened Synthesis
  import WavWriter
  import CycleArray

  // ---------------------------------------------------------------------
  // stringToUInt: `strtoul` in base 10, then range and end checks.

  /** The characters `isspace` accepts in the C locale. */
  predicate IsSpace(c: char)
  {
    c == ' ' || c == '\t' || c == '\n' || c == '\U{0B}' || c == '\U{0C}' || c == '\r'
  }

  /** Length of the longest prefix of white space. */
  function SpacePrefix(s: string): (n: nat)
    ensures n <= |s|
    ensures forall i :: 0 <= i < n ==> IsSpace(s[i])
    ensures n < |s| ==> !IsSpace(s[n])
  {
    if s == [] || !IsSpace(s[0]) then 0 else 1 + SpacePrefix(s[1..])
  }

  /** Length of the longest prefix of decimal digits. */
  function DigitPrefix(s: string): (n: nat)
    ensures n <= |s|
    ensures AllDigits(s[..n])
    ensures n < |s| ==> !IsDigit(s[n])
  {
    if s == [] || !IsDigit(s[0]) then 0
    else
      var n := 1 + DigitPrefix(s[1..]);
      assert s[..n] == [s[0]] + s[1..][..n - 1];
      n
  }

  /** What `strtoul(str, &endptr, 10)` reports: the value, the index
      `endptr` points at, and whether `errno` is set to ERANGE. */
  datatype Conversion = Conversion(value: nat, end: nat, overflow: bool)

  function Strtoul(s: string): (c: Conversion)
    ensures c.end <= |s|
    ensures c.value <= ULONG_MAX
  {
    var spaces := SpacePrefix(s);
    ConvertSigned(spaces, s[spaces..])
  }

  /** After the leading white space: an optional sign, then the digits. */
  function ConvertSigned(spaces: nat, rest: string): (c: Conversion)
    ensures c.end <= spaces + |rest|
    ensures c.value <= ULONG_MAX
  {
    if |rest| > 0 && rest[0] == '-' then ConvertDigits(spaces + 1, rest[1..], true)
    else if |rest| > 0 && rest[0] == '+' then ConvertDigits(spaces + 1, rest[1..], false)
    else ConvertDigits(spaces, rest, false)
  }

  /** The digits starting at index `start`: no digit means no conversion
      (`endptr` is the string itself); a value beyond `ULONG_MAX` saturates
      and sets ERANGE; a minus sign negates modulo 2^64. */
  function ConvertDigits(start: nat, body: string, negative: bool): (c: Conversion)
    ensures c.end <= start + |body|
    ensures c.value <= ULONG_MAX
  {
    var digits := DigitPrefix(body);
    var end := start + digits;
    if digits == 0 then Conversion(0, 0, false)
    else
      var magnitude := DigitsValue(body[..digits]);
      if magnitude > ULONG_MAX then Conversion(ULONG_MAX, end, true)
      else if negative then Conversion(NegateULong(magnitude), end, false)
      else Conversion(magnitude, end, false)
  }

  /** Unsigned negation of a 64-bit `unsigned long`: the value that adds
      to `m` to give 0 modulo 2^64. */
  function NegateULong(m: nat): (r: nat)
    requires m <= ULONG_MAX
    ensures r <= ULONG_MAX
    ensures r + m == 0 || r + m == ULONG_MAX + 1
  {
    if m == 0 then 0 else ULONG_MAX + 1 - m
  }

  /** The value `stringToUInt` stores, or `None` when it returns false. */
  function ParseUInt32(s: string): (r: Option<uint32>)
    ensures s == "" ==> r.None?
  {
    if s == "" then None
    else
      var c := Strtoul(s);
      if c.overflow || c.end != |s| || c.value > UINT32_MAX then None
      else Some(c.value)
  }

  /** `stringToUInt`: on success stores the value in `result`; on failure
      returns false and leaves `result` as it was. */
  method StringToUInt(s: string, result0: uint32) returns (ok: bool, result: uint32)
    ensures ok <==> ParseUInt32(s).Some?
    ensures ok ==> result == ParseUInt32(s).value
    ensures !ok ==> result == result0
  {
    var parsed := ParseUInt32(s);
    if parsed.None? {
      return false, result0;
    }
    return true, parsed.value;
  }

  lemma {:induction false} DigitPrefixOfDigits(s: string)
    requires AllDigits(s)
    ensures DigitPrefix(s) == |s|
  {
    if s != [] {
      DigitPrefixOfDigits(s[1..]);
    }
  }

  /** A plain digit string is accepted exactly when its value fits in 32 bits. */
  lemma PlainDigits(s: string)
    requires |s| > 0 && AllDigits(s)
    ensures ParseUInt32(s) == if DigitsValue(s) <= UINT32_MAX then Some(DigitsValue(s)) else None
  {
    DigitPrefixOfDigits(s);
    assert SpacePrefix(s) == 0 && s[0..] == s;
    assert Strtoul(s) == ConvertDigits(0, s, false);
    assert s[..|s|] == s;
  }

  /** Every 32-bit value reads back from its decimal text. */
  lemma DecimalRoundTrip(n: uint32)
    ensures ParseUInt32(NatToDecimal(n)) == Some(n)
  {
    DigitsValueOfDecimal(n);
    PlainDigits(NatToDecimal(n));
  }

  /** Characters left over after the number make the parse fail. */
  lemma TrailingCharactersRejected(digits: string, tail: string)
    requires |digits| > 0 && AllDigits(digits)
    requires |tail| > 0 && !IsDigit(tail[0])
    ensures ParseUInt32(digits + tail) == None
  {
    var s := digits + tail;
    assert s[0] == digits[0];
    assert SpacePrefix(s) == 0 && s[0..] == s;
    DigitPrefixSplit(digits, tail);
    assert Strtoul(s) == ConvertDigits(0, s, false);
    assert Strtoul(s).overflow || Strtoul(s).end == |digits|;
  }

  lemma {:induction false} DigitPrefixSplit(digits: string, tail: string)
    requires AllDigits(digits)
    requires |tail| > 0 && !IsDigit(tail[0])
    ensures DigitPrefix(digits + tail) == |digits|
  {
    if digits != [] {
      assert (digits + tail)[1..] == digits[1..] + tail;
      DigitPrefixSplit(digits[1..], tail);
    }
  }

  /** A minus-signed digit string: `strtoul` negates its value modulo
      2^64, so the result is accepted only for zero or for magnitudes just
      below 2^64 whose negation fits in 32 bits. */
  lemma MinusDigits(d: string)
    requires |d| > 0 && AllDigits(d)
    ensures var v := DigitsValue(d);
            ParseUInt32("-" + d) ==
              if v > ULONG_MAX then None
              else if NegateULong(v) <= UINT32_MAX then Some(NegateULong(v))
              else None
  {
    var s := "-" + d;
    DigitPrefixOfDigits(d);
    assert SpacePrefix(s) == 0 && s[0..] == s && s[1..] == d;
    assert Strtoul(s) == ConvertDigits(1, d, true);
    assert d[..|d|] == d;
  }

  /** "-0" is accepted as 0. */
  lemma MinusZeroAccepted()
    ensures ParseUInt32("-0") == Some(0)
  {
    assert AllDigits("0") && DigitsValue("0") == 0;
    MinusDigits("0");
  }

  /** "-1" wraps around to `ULONG_MAX`, far beyond 32 bits, and is rejected. */
  lemma MinusOneRejected()
    ensures ParseUInt32("-1") == None
  {
    assert AllDigits("1") && DigitsValue("1") == 1;
    MinusDigits("1");
    assert NegateULong(1) == ULONG_MAX;
  }

  // ---------------------------------------------------------------------
  // stringToDouble: `strtod` is not modelled.

  /** Whether `strtod` consumed the whole string without error, and the
      value it produced. */
  type Strtod = string -> Option<real>

  /** `stringToDouble`: an empty string is refused before `strtod` runs. */
  function ParseDouble(s: string, strtod: Strtod): (r: Option<real>)
    ensures s == "" ==> r.None?
    ensures s != "" ==> r == strtod(s)
  {
    if s == "" then None else strtod(s)
  }

  // ---------------------------------------------------------------------
  // Options and positional arguments.

  const CArrayFlag: string := "--c-array"
  const CCycleFlag: string := "--c-cycle"
  const DefaultAmplitude: real := 0.8
  const DefaultOutput: string := "output.wav"

  predicate IsFlag(s: string)
  {
    s == CArrayFlag || s == CCycleFlag
  }

  /** Some argument after the program name equals `flag`. */
  predicate HasArg(args: seq<string>, flag: string)
  {
    exists i :: 1 <= i < |args| && args[i] == flag
  }

  /** The loop over argv that sets the two option flags. */
  method ScanFlags(args: seq<string>) returns (cArray: bool, cCycle: bool)
    ensures cArray <==> HasArg(args, CArrayFlag)
    ensures cCycle <==> HasArg(args, CCycleFlag)
  {
    cArray, cCycle := false, false;
    var i := 1;
    while i < |args|
      invariant 1 <= i
      invariant cArray <==> exists j :: 1 <= j < i && j < |args| && args[j] == CArrayFlag
      invariant cCycle <==> exists j :: 1 <= j < i && j < |args| && args[j] == CCycleFlag
    {
      if args[i] == CArrayFlag {
        cArray := true;
      } else if args[i] == CCycleFlag {
        cCycle := true;
      }
      i := i + 1;
    }
  }

  /** argv[4] is read as the amplitude when it exists and is not a flag. */
  predicate AmplitudeGiven(args: seq<string>)
  {
    |args| >= 5 && !IsFlag(args[4])
  }

  /** Where the output file name is looked for: after the amplitude if
      there is one. */
  function OutputIndex(args: seq<string>): (k: nat)
    ensures k == 4 || k == 5
  {
    if AmplitudeGiven(args) then 5 else 4
  }

  function OutputFile(args: seq<string>): (name: string)
    ensures !IsFlag(name)
  {
    var k := OutputIndex(args);
    if |args| > k && !IsFlag(args[k]) then args[k] else DefaultOutput
  }

  /** The output name comes only from argv[5], and only when neither argv[4]
      nor argv[5] is a flag; a name in argv[4] is taken as the amplitude. */
  lemma OutputFilePosition(args: seq<string>)
    ensures OutputFile(args)
         == if |args| >= 6 && !IsFlag(args[4]) && !IsFlag(args[5]) then args[5] else DefaultOutput
  {
  }

  // ---------------------------------------------------------------------
  // Companion file names.

  /** `find_last_of`: the index of the last occurrence of c. */
  function LastIndexOf(s: string, c: char): (r: Option<nat>)
    ensures LastOccurrence(s, c, r)
  {
    if s == [] then None
    else if s[|s| - 1] == c then Some(|s| - 1)
    else
      var r := LastIndexOf(s[..|s| - 1], c);
      LastOccurrenceStep(s, c, r);
      r
  }

  /** `r` is the index of the last occurrence of c in s, or `None` when c
      does not occur. */
  predicate LastOccurrence(s: string, c: char, r: Option<nat>)
  {
    && (r.None? <==> c !in s)
    && (r.Some? ==> r.value < |s| && s[r.value] == c && c !in s[r.value + 1..])
  }

  /** A character other than c appended to s leaves the last c where it was. */
  lemma LastOccurrenceStep(s: string, c: char, r: Option<nat>)
    requires s != [] && s[|s| - 1] != c
    requires LastOccurrence(s[..|s| - 1], c, r)
    ensures LastOccurrence(s, c, r)
  {
    var front := s[..|s| - 1];
    assert s == front + [s[|s| - 1]];
    if r.Some? {
      assert s[r.value + 1..] == front[r.value + 1..] + [s[|s| - 1]];
    }
  }

  /** The name of a C file written next to the WAV file: everything from
      the last '.' on is replaced by `suffix`, or `suffix` is appended when
      there is no '.'. */
  function CompanionPath(output: string, suffix: string): (path: string)
    ensures |path| >= |suffix| && path[|path| - |suffix|..] == suffix
    ensures var stem := path[..|path| - |suffix|];
            && stem <= output
            && (stem == output <==> '.' !in output)
            && (stem != output ==> output[|stem|] == '.' && '.' !in output[|stem| + 1..])
  {
    match LastIndexOf(output, '.')
    case Some(dot) => output[..dot] + suffix
    case None => output + suffix
  }

  const WeekSuffix: string := "_week.c"
  const CycleSuffix: string := "_cycle.c"
  const WeekArrayName: string := "sine_wave_week"
  const CycleArrayName: string := "sine_wave_cycle"

  // ---------------------------------------------------------------------
  // main

  datatype CliError =
    | Usage            // argc outside 4..8
    | BadSampleRate
    | BadFrequency
    | BadDuration
    | BadAmplitude
    | InvalidParams(reason: ParamError)

  datatype Options = Options(params: WaveParams, output: string, cArray: bool, cCycle: bool)

  /** The arguments `main` accepts and the options it derives from them,
      or the error that makes it exit with status 1. */
  function ParseCommandLine(args: seq<string>, strtod: Strtod): (r: Result<Options, CliError>)
    ensures r == Failure(Usage) <==> |args| < 4 || |args| > 8
    ensures r.Success? ==> Valid(r.value.params)
    ensures r.Success? ==> r.value.output == OutputFile(args)
    ensures r.Success? ==> (r.value.cArray <==> HasArg(args, CArrayFlag))
    ensures r.Success? ==> (r.value.cCycle <==> HasArg(args, CCycleFlag))
    ensures r.Success? ==> ParseUInt32(args[1]) == Some(r.value.params.sampleRate)
    ensures r.Success? ==> !AmplitudeGiven(args) ==> r.value.params.amplitude == DefaultAmplitude
    ensures r.Success? ==> ParseDouble(args[2], strtod) == Some(r.value.params.frequency)
    ensures r.Success? ==> ParseDouble(args[3], strtod) == Some(r.value.params.duration)
    ensures r.Success? && AmplitudeGiven(args) ==> ParseDouble(args[4], strtod) == Some(r.value.params.amplitude)
    ensures r.Success? ==> r.value.params.waveType == Sine
    ensures 4 <= |args| <= 8 && ParseUInt32(args[1]).Some?
            && ParseDouble(args[2], strtod).Some? && ParseDouble(args[3], strtod).Some?
            && (AmplitudeGiven(args) ==> ParseDouble(args[4], strtod).Some?)
            && Valid(WaveParams(ParseUInt32(args[1]).value,
                                ParseDouble(args[2], strtod).value, ParseDouble(args[3], strtod).value,
                                if AmplitudeGiven(args) then ParseDouble(args[4], strtod).value
                                else DefaultAmplitude,
                                Sine))
            ==> r.Success?
  {
    if |args| < 4 || |args| > 8 then Failure(Usage)
    else if ParseUInt32(args[1]).None? then Failure(BadSampleRate)
    else if ParseDouble(args[2], strtod).None? then Failure(BadFrequency)
    else if ParseDouble(args[3], strtod).None? then Failure(BadDuration)
    else if AmplitudeGiven(args) && ParseDouble(args[4], strtod).None? then Failure(BadAmplitude)
    else
      var amplitude := if AmplitudeGiven(args) then ParseDouble(args[4], strtod).value else DefaultAmplitude;
      var params := WaveParams(ParseUInt32(args[1]).value, ParseDouble(args[2], strtod).value,
                               ParseDouble(args[3], strtod).value, amplitude, Sine);
      match ValidateParams(params)
      case Some(reason) => Failure(InvalidParams(reason))
      case None => Success(Options(params, OutputFile(args), HasArg(args, CArrayFlag), HasArg(args, CCycleFlag)))
  }

  /** A file `main` writes, or hands to the week-long array writer. */
  datatype Effect =
    | WroteWav(path: string, bytes: seq<byte>)
    | RequestedWeekArray(path: string, arrayName: string, pcm: seq<int16>)
    | WroteCycleArray(path: string, text: string)

  /** Exit status and files of a run with valid options. */
  function Outcome(o: Options, sine: SineOracle, fmt: CycleArray.DoubleFormat,
                   canOpen: string -> bool): (r: (int, seq<Effect>))
    requires Valid(o.params)
    ensures r.0 == 0 <==> canOpen(o.output)
    ensures r.0 == 1 <==> r.1 == []
    ensures !canOpen(o.output) ==> r == (1, [])
    ensures r.0 == 0 ==> var pcm := SineBuffer(o.params, sine, TotalSamples(o.params));
                         r.1 == [WroteWav(o.output, WavWriter.WavFile(pcm, o.params.sampleRate))]
                                + WeekEffect(o, pcm) + CycleEffect(o, sine, fmt, canOpen)
    ensures r.0 == 0 ==> (o.cArray <==> |r.1| >= 2 && r.1[1].RequestedWeekArray?)
  {
    var p := o.params;
    var pcm := SineBuffer(p, sine, TotalSamples(p));
    if !canOpen(o.output) then (1, [])
    else
      var wav := WroteWav(o.output, WavWriter.WavFile(pcm, p.sampleRate));
      var week := WeekEffect(o, pcm);
      var cycle := CycleEffect(o, sine, fmt, canOpen);
      EffectOrder(wav, week, cycle);
      (0, [wav] + week + cycle)
  }

  /** The WAV file comes first, and a week-array request, when there is one,
      comes second: a cycle file is never a request. */
  lemma EffectOrder(wav: Effect, week: seq<Effect>, cycle: seq<Effect>)
    requires |week| <= 1 && (week != [] ==> week[0].RequestedWeekArray?)
    requires cycle != [] ==> cycle[0].WroteCycleArray?
    ensures var all := [wav] + week + cycle;
            all[0] == wav && (week != [] <==> |all| >= 2 && all[1].RequestedWeekArray?)
  {
    var all := [wav] + week + cycle;
    if week == [] && cycle != [] {
      assert all[1] == cycle[0];
    }
  }

  /** The hand-off to the week-long array writer, when `--c-array` was given. */
  function WeekEffect(o: Options, pcm: seq<int16>): (r: seq<Effect>)
    ensures |r| <= 1
    ensures r != [] <==> o.cArray
    ensures r != [] ==> r[0] == RequestedWeekArray(CompanionPath(o.output, WeekSuffix), WeekArrayName, pcm)
  {
    if o.cArray then [RequestedWeekArray(CompanionPath(o.output, WeekSuffix), WeekArrayName, pcm)] else []
  }

  /** The one-cycle array file, when requested and when a period holds at
      least one sample and the file can be created. */
  function CycleEffect(o: Options, sine: SineOracle, fmt: CycleArray.DoubleFormat,
                       canOpen: string -> bool): (r: seq<Effect>)
    requires Valid(o.params)
    ensures |r| <= 1
    ensures r != [] <==> o.cCycle && CycleArray.SamplesPerCycle(o.params) > 0
                         && canOpen(CompanionPath(o.output, CycleSuffix))
    ensures r != [] ==> r[0].WroteCycleArray? && r[0].path == CompanionPath(o.output, CycleSuffix)
    ensures r != [] ==> r[0].text == CycleArray.CycleText(o.params, fmt, CycleArrayName,
                                       SineBuffer(o.params, sine, CycleArray.SamplesPerCycle(o.params)))
  {
    var p := o.params;
    var cyclePath := CompanionPath(o.output, CycleSuffix);
    if o.cCycle && CycleArray.SamplesPerCycle(p) > 0 && canOpen(cyclePath)
    then [WroteCycleArray(cyclePath, CycleArray.CycleText(p, fmt, CycleArrayName,
                                       SineBuffer(p, sine, CycleArray.SamplesPerCycle(p))))]
    else []
  }

  /** The argument handling of `main`, up to and including validation. */
  method ParseArguments(args: seq<string>, strtod: Strtod) returns (r: Result<Options, CliError>)
    ensures r == ParseCommandLine(args, strtod)
  {
    if |args| < 4 || |args| > 8 {
      return Failure(Usage);
    }
    var cArray, cCycle := ScanFlags(args);

    var ok, sampleRate := StringToUInt(args[1], 0);
    if !ok {
      return Failure(BadSampleRate);
    }
    var frequency := ParseDouble(args[2], strtod);
    if frequency.None? {
      return Failure(BadFrequency);
    }
    var duration := ParseDouble(args[3], strtod);
    if duration.None? {
      return Failure(BadDuration);
    }

    var amplitude := DefaultAmplitude;
    var argIndex := 4;
    if |args| >= 5 && args[4] != CArrayFlag && args[4] != CCycleFlag {
      var parsed := ParseDouble(args[4], strtod);
      if parsed.None? {
        return Failure(BadAmplitude);
      }
      amplitude := parsed.value;
      argIndex := 5;
    }

    var output := DefaultOutput;
    if |args| > argIndex && args[argIndex] != CArrayFlag && args[argIndex] != CCycleFlag {
      output := args[argIndex];
    }

    var params := WaveParams(sampleRate, frequency.value, duration.value, amplitude, Sine);
    var invalid := ValidateParams(params);
    if invalid.Some? {
      return Failure(InvalidParams(invalid.value));
    }
    return Success(Options(params, output, cArray, cCycle));
  }

  /** `main`. `strtod`, the sine function, double formatting and whether a
      path can be created are supplied by the environment. Returns the exit
      status and the files written, in order. */
  method Run(args: seq<string>, strtod: Strtod, sine: SineOracle,
             fmt: CycleArray.DoubleFormat, canOpen: string -> bool)
    returns (exitCode: int, effects: seq<Effect>)
    ensures (|args| < 4 || |args| > 8) ==> exitCode == 1 && effects == []
    ensures ParseCommandLine(args, strtod).Failure? ==> exitCode == 1 && effects == []
    ensures ParseCommandLine(args, strtod).Success? ==>
              (exitCode, effects) == Outcome(ParseCommandLine(args, strtod).value, sine, fmt, canOpen)
  {
    var parsed := ParseArguments(args, strtod);
    if parsed.Failure? {
      return 1, [];
    }
    exitCode, effects := Generate(parsed.value, sine, fmt, canOpen);
  }

  /** What `main` does once the options are valid: the WAV file, then the
      optional companion C files. */
  method Generate(o: Options, sine: SineOracle, fmt: CycleArray.DoubleFormat,
                  canOpen: string -> bool)
    returns (exitCode: int, effects: seq<Effect>)
    requires Valid(o.params)
    ensures (exitCode, effects) == Outcome(o, sine, fmt, canOpen)
  {
    var params := o.params;
    var pcm := GenerateSineWave(params, sine);
    var wav := WavWriter.SaveAsWav(pcm, params.sampleRate, canOpen(o.output));
    if wav.None? {
      return 1, [];
    }
    var week: seq<Effect> := [];
    if o.cArray {
      var weekPath := CompanionPath(o.output, WeekSuffix);
      week := [RequestedWeekArray(weekPath, WeekArrayName, pcm)];
    }
    var cycle: seq<Effect> := [];
    if o.cCycle {
      var cyclePath := CompanionPath(o.output, CycleSuffix);
      var text := CycleArray.SaveOneCycleAsCArray(params, sine, fmt, canOpen(cyclePath), CycleArrayName);
      if text.Some? {
        cycle := [WroteCycleArray(cyclePath, text.value)];
      }
    }
    effects := [WroteWav(o.output, wav.value)] + week + cycle;
    return 0, effects;
  }
}
