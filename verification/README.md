# SinWave in Dafny

A model of the SinWave command-line tone generator. Given a sample rate, a
frequency, a duration and an amplitude, it synthesises a 16-bit mono sine
tone. It writes the tone as a canonical RIFF/WAVE PCM file and can also
write one period of the tone as a C array. The model covers:

- `WaveGenerator::validateParams`;
- `WaveGenerator::generateSineWave`, whose sample values come from a sine
  oracle;
- `WaveGenerator::saveAsWAV`, including the byte layout of the 44-byte
  `WAVHeader`;
- `WaveGenerator::saveOneCycleAsCArray`, including the exact text of the
  array body and its trailers;
- from `main.cpp`: `stringToUInt` with the `strtoul` conversion it relies on,
  `stringToDouble`, the argument count check, the `--c-array` / `--c-cycle`
  scan, the positional amplitude and output-file logic, the `_week.c` /
  `_cycle.c` path derivation, and the overall exit status and files
  written by `main`.

Modules, one concept each:

| module | what it holds |
|---|---|
| `Wrappers` | `Option` and `Result`. |
| `Ints` | The fixed-width integer types, 32-bit wrap-around, and truncation toward zero. |
| `LittleEndian` | Little-endian byte images of unsigned integers and of `int16_t` samples. |
| `Decimal` | Decimal text of integers, as `operator<<` prints them, and digit-string values. |
| `WaveTypes` | `WaveType` and `WaveParams`, plus the default cycle array name `sine_wave_data`. |
| `Validation` | The parameter check. |
| `Synthesis` | Sample count, peak and sample values; the buffer-filling loop. |
| `WavFormat` | The 13 header fields: their widths, their offsets, and header encode/decode with both round trips. |
| `WavWriter` | The header `saveAsWAV` fills in and the file bytes it produces. |
| `WavReadBack` | What a reader finds in such a file. |
| `CycleArray` | The one-cycle C array writer. The value loop is modelled as an imperative method and proved equal to a line-by-line layout. |
| `Cli` | `main` and its helpers. |

Effects at the edge of the system are parameters:

| effect | parameter |
|---|---|
| Whether a file can be created | `canOpen` |
| `std::sin` | `SineOracle`, x ↦ sin(2πx), bounded to [-1, 1] |
| Printing a `double` | `DoubleFormat` |
| `strtod` | `Strtod` |

`main` returns its exit status together with the list of files it writes.

Behaviour of the code that the model keeps as it is:

- The sample count is `sample_rate * duration` truncated toward zero.
- `validateParams` rejects `frequency <= 0` for every wave kind, although
  the field's comment says white noise does not use the frequency
  (include/wave_generator.hpp:13). There is no upper bound on the
  frequency, and `duration > 0` is always required.
- `saveOneCycleAsCArray` does not check the wave kind, although its
  declaration says it is for sine waves only
  (include/wave_generator.hpp:37).

## Model

| member | source | states |
|---|---|---|
| Validation.ValidateParams | src/wave_generator.cpp:14-32 | Accepts (`None`) exactly when sample rate > 0, frequency > 0, duration > 0 and 0 ≤ amplitude ≤ 1. Otherwise it reports the first failing check, in the order sample rate, frequency, duration, amplitude. |
| Validation.ValidationIgnoresWaveType | src/wave_generator.cpp:14-32 | The wave kind plays no part in validation. |
| Ints.Trunc | src/wave_generator.cpp:35-36 | Every `double` → integer `static_cast` (also lines 42, 47 and 93) drops the fraction toward zero: for x ≥ 0 the result r satisfies r ≤ x < r + 1, and for x ≤ 0 it satisfies r − 1 < x ≤ r. |
| Ints.Wrap32 | src/wave_generator.cpp:62 | The conversions to `uint32_t` (also lines 66 and 73) reduce modulo 2^32: values that fit are unchanged, and the result is congruent to the input. |
| Synthesis.TotalSamples | src/wave_generator.cpp:35-37 | The buffer length is `sample_rate * duration` truncated: n ≤ sr·d < n + 1. |
| Synthesis.MaxAmplitude | src/wave_generator.cpp:41-42 | The peak is `amplitude * 32767` truncated, between 0 and 32767. |
| Synthesis.Scale | src/wave_generator.cpp:47 | The `int16_t` cast of a sine value times the peak never exceeds the peak in magnitude. |
| Synthesis.SineSample | src/wave_generator.cpp:45-47 | Sample i lies within ±peak. |
| Synthesis.Phase | src/wave_generator.cpp:39-46 | The argument of `std::sin`, in turns: frequency · i · (1 / sample rate). It is non-negative, 0 for the first sample, and below `frequency` turns exactly for the samples of the first second. |
| Synthesis.SineBuffer | src/wave_generator.cpp:37-48 | The first `count` samples of the tone, in order: a buffer of length `count`. |
| Synthesis.Synthesize | src/wave_generator.cpp:44-48 | The loop fills a buffer of the requested length, with element i equal to sample i. |
| Synthesis.GenerateSineWave | src/wave_generator.cpp:34-51 | Returns the first `TotalSamples` samples of the tone. |
| Synthesis.SamplesWithinPeak | src/wave_generator.cpp:41-48 | Every sample of the buffer lies within ±peak, and the peak lies within 32767. |
| Synthesis.QuietToneIsSilent | src/wave_generator.cpp:41-48 | When `amplitude * 32767 < 1` every sample is 0. |
| Synthesis.FirstSampleIsZero | src/wave_generator.cpp:44-47 | With sin(0) = 0, the first sample is 0. |
| Synthesis.TonePeriodic | src/wave_generator.cpp:39-47 | If a whole number of samples `period` satisfies period · frequency = sample rate, then sample i + period equals sample i. |
| Synthesis.PhaseAdvance | src/wave_generator.cpp:39-46 | When period · frequency = sample rate, advancing by `period` samples advances the phase by exactly one turn. |
| Synthesis.EightMillisecondSamples | src/wave_generator.cpp:35-37 | 8000 Hz for 0.001 s with amplitude 1.0 gives valid parameters and 8 samples. |
| LittleEndian.Encode | src/wave_generator.cpp:80 | The memory image of an unsigned field: its `width` low-order bytes, least significant first, exactly `width` bytes long. |
| LittleEndian.SampleBytes | src/wave_generator.cpp:83 | The memory image of one `int16_t`: exactly 2 bytes, two's complement, low byte first. |
| LittleEndian.DecodeEncode | src/wave_generator.cpp:80 | Decoding the little-endian image of a value that fits the width gives the value back. |
| LittleEndian.EncodeDecode | src/wave_generator.cpp:80 | Every byte string is the image of its decoded value. |
| LittleEndian.SampleRoundTrip | src/wave_generator.cpp:83 | The two bytes of an `int16_t` (two's complement, low byte first) decode back to the sample. |
| LittleEndian.EncodeSamples | src/wave_generator.cpp:83 | A buffer's byte image has exactly 2 bytes per sample. |
| LittleEndian.SampleBytesAt | src/wave_generator.cpp:83 | Sample i occupies bytes 2i and 2i+1 of the image. |
| LittleEndian.SamplesRoundTrip | src/wave_generator.cpp:83 | Decoding the byte image of a buffer gives the buffer back. |
| Decimal.NatToDecimal | src/wave_generator.cpp:150-151 | Decimal text is non-empty, all digits, with no leading zero. |
| Decimal.IntToDecimal | src/wave_generator.cpp:138 | A printed integer is digits, preceded by '-' only for a negative value. |
| Decimal.IntToDecimalValue | src/wave_generator.cpp:138 | A printed integer reads back as the integer: the digits of a non-negative value give the value, and a negative value prints as '-' followed by the digits of its magnitude. |
| Decimal.DigitsValueOfDecimal | src/wave_generator.cpp:150-151 | The printed decimal text of n reads back as n. |
| Decimal.DecimalHasNoSeparators | src/wave_generator.cpp:138-145 | Printed integers contain no line break, comma or space. |
| WavFormat.EncodeHeader | include/wave_generator.hpp:45-59 | The header image, its fields back to back with no padding (each is naturally aligned), is 44 bytes long. |
| WavFormat.HeaderSizeIsSumOfWidths | include/wave_generator.hpp:45-59 | The 13 field widths (4 for tags and `uint32_t` fields, 2 for `uint16_t` fields) add up to 44. |
| WavFormat.HeaderOffsets | include/wave_generator.hpp:45-59 | The fields start at offsets 0, 4, 8, 12, 16, 20, 22, 24, 28, 32, 34, 36, 40. |
| WavFormat.CutAt | include/wave_generator.hpp:45-59 | Piece k of bytes cut by widths is the slice that starts at the running sum of the earlier widths. |
| WavFormat.ConcatCut | include/wave_generator.hpp:45-59 | Cutting bytes into pieces by widths and laying them end to end gives the bytes back. |
| WavFormat.CutConcat | include/wave_generator.hpp:45-59 | Laying pieces of the given widths end to end and cutting again gives the pieces back. |
| WavFormat.DecodeReadsRiffChunk | include/wave_generator.hpp:46-48 | The decoder reads `riff` at 0..4, `chunk_size` little-endian at 4..8 and `wave` at 8..12. |
| WavFormat.DecodeReadsFormatChunk | include/wave_generator.hpp:49-52 | The decoder reads `fmt` at 12..16, `fmt_size` at 16..20, `format` at 20..22 and `channels` at 22..24. |
| WavFormat.DecodeReadsRateAndData | include/wave_generator.hpp:53-58 | The decoder reads `sample_rate` at 24..28, `byte_rate` at 28..32, `block_align` at 32..34, `bits_per_sample` at 34..36, `data` at 36..40 and `data_size` at 40..44. |
| WavFormat.DecodeEncodeHeader | include/wave_generator.hpp:45-59 | Decoding an encoded header gives the header back. |
| WavFormat.EncodeDecodeHeader | include/wave_generator.hpp:45-59 | Every 44-byte string is the encoding of the header decoded from it. |
| WavWriter.MakeHeader | src/wave_generator.cpp:61-77 | The header is canonical mono 16-bit PCM: tags "RIFF", "WAVE", "fmt " and "data"; `fmt_size` 16; format 1; 1 channel; 16 bits; block align 2. It carries the given sample rate, byte rate = rate · 2 mod 2^32, `data_size` = 2n mod 2^32 and `chunk_size` = 36 + `data_size` mod 2^32. |
| WavWriter.SampleData | src/wave_generator.cpp:62-83 | The bytes written after the header are the first `data_size` bytes of the buffer's image. When 2n fits in 32 bits, that is the whole image. |
| WavWriter.WavFile | src/wave_generator.cpp:79-83 | The file is 44 + `data_size` bytes, so 44 + 2n when nothing wraps. |
| WavWriter.SaveAsWav | src/wave_generator.cpp:53-87 | Writes nothing and returns false exactly when the file cannot be created. Otherwise it writes the header followed by the sample data. |
| WavReadBack.HeaderDecodes | src/wave_generator.cpp:61-80 | The first 44 bytes of a written file decode to the header the writer made. |
| WavReadBack.HeaderReadBack | src/wave_generator.cpp:61-80 | Re-reading the header gives a canonical header with the sample rate, channels 1, 16 bits and `data_size` 2n mod 2^32, which is exactly 2n when that fits. |
| WavReadBack.RiffChunkInFile | src/wave_generator.cpp:65-67 | In the file: "RIFF" at 0, chunk size 36 + `data_size` (mod 2^32) at 4, "WAVE" at 8. |
| WavReadBack.FormatChunkInFile | src/wave_generator.cpp:68-71 | In the file: "fmt " at 12, 16 at offset 16, format 1 at 20, 1 channel at 22. |
| WavReadBack.RateAndDataInFile | src/wave_generator.cpp:72-77 | In the file: sample rate at 24, byte rate 2·rate (mod 2^32) at 28, block align 2 at 32, 16 bits at 34, "data" at 36, `data_size` at 40. |
| WavReadBack.AfterHeader | src/wave_generator.cpp:80-83 | After the 44 header bytes come exactly the sample data. |
| WavReadBack.DataFollowsHeader | src/wave_generator.cpp:80-83 | When 2n fits in 32 bits, the header is followed by the whole image of the buffer. |
| WavReadBack.SamplesReadBack | src/wave_generator.cpp:80-83 | When 2n fits in 32 bits, the bytes after the header decode back to the buffer. |
| WavReadBack.SampleStoredAt | src/wave_generator.cpp:83 | Sample i is stored at bytes 44+2i and 45+2i, low byte first, whenever the written data reach it. |
| WavReadBack.ChunkSizeIsFileSizeMinus8 | include/wave_generator.hpp:47 | `chunk_size` equals the file size minus 8 exactly when 36 + `data_size` does not wrap. |
| CycleArray.SamplesPerCycle | src/wave_generator.cpp:92-93 | The samples per cycle are `sample_rate / frequency` truncated. The count is 0 exactly when frequency > sample rate. |
| CycleArray.CycleOf440HzAt44100 | src/wave_generator.cpp:92-93 | 44100 Hz at 440 Hz gives 100 samples per cycle. |
| CycleArray.Rendered | src/wave_generator.cpp:138 | Each value is printed as its decimal text, in order. |
| CycleArray.SaveOneCycleAsCArray | src/wave_generator.cpp:89-159 | Returns false, with no file, exactly when a cycle has no samples or the file cannot be created. Otherwise the file is the comment block, the declaration, the laid-out values of one cycle and the trailers. |
| CycleArray.SaveOneCycleWithDefaultName | include/wave_generator.hpp:38-39 | Called without an array name, the one-cycle writer uses `sine_wave_data`, with the same outcomes as `SaveOneCycleAsCArray`. |
| CycleArray.Opening | src/wave_generator.cpp:123-131 | The comment block (sample rate, frequency, amplitude, samples per cycle, cycle duration), the `#include <stdint.h>` line and the array declaration. |
| CycleArray.Lead | src/wave_generator.cpp:135-137 | The indent of 4 spaces before value i when i % 16 == 0, otherwise nothing. |
| CycleArray.Separator | src/wave_generator.cpp:139-146 | After value i of n: nothing after the last value; otherwise "," then "\n" when (i + 1) % 16 == 0, or " ". |
| CycleArray.Piece | src/wave_generator.cpp:135-146 | What one pass of the loop writes for value i: indent, value, separator. |
| CycleArray.Streamed | src/wave_generator.cpp:134-147 | The text after the loop has written the first k values: their pieces in order. |
| CycleArray.SizeLine | src/wave_generator.cpp:150-151 | The `<name>_size` constant line, holding the number of values. |
| CycleArray.SampleRateLine | src/wave_generator.cpp:154-155 | The `<name>_sample_rate` constant line, holding the sample rate. |
| CycleArray.Closing | src/wave_generator.cpp:149-155 | The closing brace and the `_size`, `_frequency` and `_sample_rate` trailers, in that order. |
| CycleArray.CycleText | src/wave_generator.cpp:122-155 | The whole file: opening, the values laid out line by line, closing. |
| CycleArray.AppendValues | src/wave_generator.cpp:133-147 | The value loop appends exactly the line-by-line layout of the values. |
| CycleArray.StreamValues | src/wave_generator.cpp:134-147 | After the loop, every value has been streamed with its indent and separator. |
| CycleArray.AppendValue | src/wave_generator.cpp:135-146 | One pass writes the indent (at i % 16 == 0), the value, then "," followed by "\n" at every 16th value or " " otherwise, except after the last value. |
| CycleArray.StreamIsLayout | src/wave_generator.cpp:134-147 | The stream of pieces equals lines of up to 16 values joined by ", ", each indented by 4 spaces, with every line but the last ending in ",". |
| CycleArray.StreamShift | src/wave_generator.cpp:134-147 | Past the first 16 values the loop writes what it would write for the remaining values alone. |
| CycleArray.StreamFirstRow | src/wave_generator.cpp:134-147 | Within the first line the loop has written the indent, the values joined by ", ", and the separator after the last of them. |
| CycleArray.LayoutLineBreaks | src/wave_generator.cpp:139-145 | n ≥ 1 values produce (n − 1) / 16 line breaks, i.e. ⌈n/16⌉ lines. |
| CycleArray.LayoutEndsWithLastValue | src/wave_generator.cpp:139 | The body ends with the last value: no comma follows it. |
| CycleArray.SeventeenValues | src/wave_generator.cpp:134-147 | 17 values give a full line of 16, then ",\n", then the 17th value alone on line 2. |
| CycleArray.BodyShape | src/wave_generator.cpp:133-149 | For the printed samples: ⌈n/16⌉ lines, and the body ends with the last value. |
| CycleArray.SizeTrailerReadsBack | src/wave_generator.cpp:150-151 | The `<name>_size` trailer is followed by digits that read back as the number of values emitted. |
| CycleArray.SampleRateTrailerReadsBack | src/wave_generator.cpp:154-155 | The `<name>_sample_rate` trailer is followed by digits that read back as the sample rate. |
| Cli.SpacePrefix | src/main.cpp:16 | The leading run of C-locale white space that `strtoul` skips. |
| Cli.DigitPrefix | src/main.cpp:16 | The longest run of decimal digits: all digits, followed by a non-digit or the end. |
| Cli.Strtoul | src/main.cpp:16 | The index `endptr` points at never passes the end of the string, and the value is at most `ULONG_MAX`. |
| Cli.ConvertSigned | src/main.cpp:16 | After the white space: an optional '-' or '+', then the digits. `endptr` never passes the end, and the value is at most `ULONG_MAX`. |
| Cli.ConvertDigits | src/main.cpp:16 | No digit means no conversion (`endptr` back at the start, value 0). A magnitude above `ULONG_MAX` saturates and sets ERANGE; a '-' negates modulo 2^64. The value is at most `ULONG_MAX`. |
| Cli.NegateULong | src/main.cpp:16 | A minus sign negates modulo 2^64: the result plus the magnitude is 0 or 2^64. |
| Cli.ParseUInt32 | src/main.cpp:9-24 | The empty string is rejected. |
| Cli.StringToUInt | src/main.cpp:9-24 | Succeeds exactly when the parse gives a value, and stores it. On failure `result` is left unchanged. |
| Cli.PlainDigits | src/main.cpp:16-22 | A plain digit string is accepted exactly when its value is at most `UINT32_MAX`, and the value is stored. |
| Cli.DecimalRoundTrip | src/main.cpp:9-24 | The decimal text of every 32-bit value parses back to that value. |
| Cli.TrailingCharactersRejected | src/main.cpp:18 | Digits followed by a non-digit are rejected. |
| Cli.MinusDigits | src/main.cpp:16-22 | "-d" is accepted only when `d` fits in 64 bits and its negation modulo 2^64 fits in 32 bits; the value stored is that negation. |
| Cli.MinusZeroAccepted | src/main.cpp:16-22 | "-0" is accepted as 0. |
| Cli.MinusOneRejected | src/main.cpp:16-22 | "-1" is rejected, because it wraps to `ULONG_MAX`. |
| Cli.ParseDouble | src/main.cpp:27-42 | The empty string is rejected; any other string gets `strtod`'s verdict. |
| Cli.ScanFlags | src/main.cpp:84-92 | `generate_c_array` (resp. `generate_c_cycle`) is set exactly when some argument after the program name equals "--c-array" (resp. "--c-cycle"). |
| Cli.HasArg | src/main.cpp:86-91 | Some argument after the program name equals the flag. |
| Cli.AmplitudeGiven | src/main.cpp:120-121 | argv[4] is read as the amplitude exactly when it exists and is not one of the two flags. |
| Cli.OutputIndex | src/main.cpp:119-129 | The output name is looked for at index 5 when an amplitude was given, otherwise at index 4. |
| Cli.OutputFile | src/main.cpp:131-136 | The output name is never one of the two flags. |
| Cli.OutputFilePosition | src/main.cpp:118-136 | The output name is argv[5] when neither argv[4] nor argv[5] is a flag; otherwise it is "output.wav". |
| Cli.LastIndexOf | src/main.cpp:163 | `find_last_of`: `None` exactly when the character is absent. Otherwise the index of an occurrence with none after it. |
| Cli.CompanionPath | src/main.cpp:162-168 | The path ends with the suffix. Before it stands the output name cut at its last '.', or the whole name when it has no '.'. |
| Cli.ParseCommandLine | src/main.cpp:77-142 | Usage error exactly when argc is outside 4..8. The sample rate is the parsed argv[1]; the frequency and duration are `strtod`'s values of argv[2] and argv[3]; the amplitude is `strtod`'s value of argv[4] when argv[4] is present and not a flag, otherwise 0.8. The output name and flags follow the rules above, and the wave kind is sine. Parsing succeeds exactly when every conversion succeeds and the resulting parameters pass `validateParams`. |
| Cli.ParseArguments | src/main.cpp:78-142 | The imperative argument handling computes exactly `ParseCommandLine`. |
| Cli.Outcome | src/main.cpp:144-198 | Exit status 0 exactly when the WAV file can be created; status 1 exactly when nothing is written. When the WAV file cannot be created, the result is status 1 with no effects. On success the effects are, in order: the WAV file of the generated tone at the output path, the week-array request (when `--c-array` was given), and the cycle file (when written). A week-array request is the second effect exactly when `--c-array` was given. |
| Cli.WeekEffect | src/main.cpp:160-177 | The week-long array is requested exactly when `--c-array` was given, as `sine_wave_week` at the `_week.c` companion path, with the whole buffer. |
| Cli.CycleEffect | src/main.cpp:179-196 | The cycle file is written exactly when `--c-cycle` was given, a cycle has at least one sample, and the `_cycle.c` companion path can be created. It is written at that path, and its text is the one-cycle array text of the tone, named `sine_wave_cycle`. |
| Cli.Generate | src/main.cpp:144-198 | The generation steps of `main` produce exactly `Outcome`. |
| Cli.Run | src/main.cpp:77-199 | Bad argument counts and every parse or validation failure exit with status 1 and write nothing. Otherwise the result is `Outcome` of the parsed options. |

## Left out

- Floating point: `double` values are exact reals.
  - The products and quotients in the source are not rounded.
  - NaN, infinities and out-of-range `double` → integer casts (undefined behaviour in C++) are not modelled.
  - Because NaN is left out, the model cannot show that `strtod` accepts "nan" and that every comparison in `validateParams` (src/wave_generator.cpp:19, 23 and 27) is false for NaN. The program therefore accepts a NaN frequency, duration or amplitude.
  - `std::sin` and `M_PI` are a bounded oracle in turns, so sample values are known only up to that oracle.
- Printing a `double` (the comment lines and the `_frequency` trailer) is an oracle, because it depends on the stream's precision rules.
- `strtod` is an oracle; only its success and its value are used.
- `strtoul` is modelled for base 10 with a 64-bit `unsigned long`, C-locale white space and an optional sign. Other locales and 32-bit `long` platforms are not modelled.
- A null `argv` entry is not modelled; strings are never null, so only the empty-string check of `stringToUInt` / `stringToDouble` remains.
- File I/O: whether a path can be created is the `canOpen` parameter. Write errors after opening are not modelled; the source does not check them either.
- Console output is not modelled: `printUsage`, the messages on `std::cerr` / `std::cout`, and `printPCMData` (src/main.cpp:149).
- Host endianness and struct padding are not modelled: the header is written little-endian with no padding, which is the layout the format requires and the one the naturally aligned `WAVHeader` fields have.
- `generateWhiteNoise` and `generateWave` are declared at include/wave_generator.hpp:28-31 but not defined in the source; they are not part of this model.
- `saveAsCArray` (src/main.cpp:171) is not defined in the source, so its output is not part of this model. `main` records the request (path, array name, buffer) as an effect. Its success or failure does not change the exit status.
- The `WaveGenerator` object only holds a copy of the parameters, which nothing changes after construction. The member functions therefore take the parameters as an argument instead of being methods of a class.
- `main` leaves `params.wave_type` uninitialised, and nothing reads it. The model sets it to `Sine`.
- Memory exhaustion for very large buffers is not modelled.
