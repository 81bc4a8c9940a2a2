/** The one-cycle C array writer: one period of the tone, printed as the
    initializer of a `const int16_t` array with 16 values per line, plus
    trailer constants for its size, frequency and sample rate. */
module CycleArray {
  import opened Wrappers
  import opened Ints
  import opened Decimal
  import opened WaveTypes
  import opened Validation
  import opened Synthesis

  /** How an output stream prints a `double` with its default settings.
      The text depends on the stream's precision rules and is not modelled. */
  type DoubleFormat = real -> string

  const ValuesPerLine: nat := 16
  const Indent: string := "    "

  /** `static_cast<size_t>(sample_rate / frequency)`: the whole samples in one period. */
  function SamplesPerCycle(p: WaveParams): (n: nat)
    requires Valid(p)
    ensures n as real <= p.sampleRate as real / p.frequency < n as real + 1.0
    ensures n == 0 <==> p.frequency > p.sampleRate as real
  {
    QuotientBelowOne(p.sampleRate as real, p.frequency);
    Trunc(p.sampleRate as real / p.frequency)
  }

  lemma QuotientBelowOne(a: real, b: real)
    requires a >= 0.0 && b > 0.0
    ensures a / b < 1.0 <==> a < b
  {
    var q := a / b;
    assert q * b == a;
    if q < 1.0 {
      ScaleLess(q, 1.0, b);
    } else {
      ScaleAtMost(1.0, q, b);
    }
  }

  // ---------------------------------------------------------------------
  // The array body as the writing loop produces it, one value at a time.

  /** The indent the loop writes before value i: at the start of each group of 16. */
  function Lead(i: nat): string
  {
    if i % ValuesPerLine == 0 then Indent else ""
  }

  /** What follows value i of n: nothing after the last value, otherwise a
      comma and then a line break after the 16th value of a group or a space. */
  function Separator(n: nat, i: nat): string
  {
    if i < n - 1 then "," + (if (i + 1) % ValuesPerLine == 0 then "\n" else " ") else ""
  }

  /** What the loop writes for value i. */
  function Piece(w: seq<string>, i: nat): string
    requires i < |w|
  {
    Lead(i) + w[i] + Separator(|w|, i)
  }

  lemma Append(a: string, b: string, c: string)
    ensures (a + b) + c == a + (b + c)
  {
  }

  lemma Append3(a: string, b: string, c: string, d: string)
    ensures ((a + b) + c) + d == a + ((b + c) + d)
  {
  }

  /** The text after the loop has written the first k values. */
  function Streamed(w: seq<string>, k: nat): string
    requires k <= |w|
  {
    if k == 0 then "" else Streamed(w, k - 1) + Piece(w, k - 1)
  }

  // ---------------------------------------------------------------------
  // The same body described line by line.

  /** The values of one line, separated by a comma and a space. */
  function Join(row: seq<string>): string
  {
    if |row| == 0 then ""
    else if |row| == 1 then row[0]
    else Join(row[..|row| - 1]) + ", " + row[|row| - 1]
  }

  function RowText(row: seq<string>): string
  {
    Indent + Join(row)
  }

  /** Lines of up to 16 values; every line but the last ends in a comma. */
  function Layout(w: seq<string>): string
    decreases |w|
  {
    if |w| == 0 then ""
    else if |w| <= ValuesPerLine then RowText(w)
    else RowText(w[..ValuesPerLine]) + ",\n" + Layout(w[ValuesPerLine..])
  }

  /** Past the first 16 values the loop writes what it would write for the
      remaining values alone. */
  lemma {:induction false} StreamShift(w: seq<string>, j: nat)
    requires ValuesPerLine < |w| && ValuesPerLine <= j <= |w|
    ensures Streamed(w, j) == Streamed(w, ValuesPerLine) + Streamed(w[ValuesPerLine..], j - ValuesPerLine)
  {
    if j > ValuesPerLine {
      var rest := w[ValuesPerLine..];
      var k := j - ValuesPerLine;
      StreamShift(w, j - 1);
      PieceShift(w, j - 1);
      assert Streamed(w, j) == Streamed(w, j - 1) + Piece(w, j - 1);
      assert Streamed(rest, k) == Streamed(rest, k - 1) + Piece(rest, k - 1);
      Append(Streamed(w, ValuesPerLine), Streamed(rest, k - 1), Piece(rest, k - 1));
    }
  }

  /** Value i of a list is value i - 16 of its tail past the first line, and
      the loop writes the same around it in both. */
  lemma PieceShift(w: seq<string>, i: nat)
    requires ValuesPerLine <= i < |w|
    ensures Piece(w, i) == Piece(w[ValuesPerLine..], i - ValuesPerLine)
  {
    assert w[i] == w[ValuesPerLine..][i - ValuesPerLine];
    assert i % ValuesPerLine == (i - ValuesPerLine) % ValuesPerLine;
    assert (i + 1) % ValuesPerLine == (i + 1 - ValuesPerLine) % ValuesPerLine;
  }

  /** Within the first line, the loop has written the indent, the values
      joined by ", ", and the separator that follows the last of them. */
  lemma {:induction false} StreamFirstRow(w: seq<string>, k: nat)
    requires 1 <= k <= ValuesPerLine && k <= |w|
    ensures Streamed(w, k) == RowText(w[..k]) + Separator(|w|, k - 1)
  {
    if k == 1 {
      assert Streamed(w, 1) == "" + Piece(w, 0);
      assert w[..1] == [w[0]];
    } else {
      StreamFirstRow(w, k - 1);
      var front := w[..k - 1];
      var sep := Separator(|w|, k - 1);
      InsideFirstRow(|w|, k - 1);
      assert Streamed(w, k - 1) == RowText(front) + ", ";
      assert Piece(w, k - 1) == w[k - 1] + sep;
      assert RowText(w[..k]) == (RowText(front) + ", ") + w[k - 1] by {
        assert w[..k][..k - 1] == front;
        assert Join(w[..k]) == Join(front) + ", " + w[k - 1];
        Append3(Indent, Join(front), ", ", w[k - 1]);
      }
      Append(RowText(front) + ", ", w[k - 1], sep);
    }
  }

  /** Inside the first line no value is indented and every value but the
      last of the line is followed by a comma and a space. */
  lemma InsideFirstRow(n: nat, i: nat)
    requires 1 <= i < ValuesPerLine && i < n
    ensures Lead(i) == "" && Separator(n, i - 1) == ", "
  {
  }

  /** The loop produces exactly the line-by-line layout. */
  lemma {:induction false} StreamIsLayout(w: seq<string>)
    ensures Streamed(w, |w|) == Layout(w)
    decreases |w|
  {
    if |w| == 0 {
    } else if |w| <= ValuesPerLine {
      StreamFirstRow(w, |w|);
      assert w[..|w|] == w;
      assert Separator(|w|, |w| - 1) == "";
    } else {
      StreamShift(w, |w|);
      StreamFirstRow(w, ValuesPerLine);
      assert Separator(|w|, ValuesPerLine - 1) == ",\n";
      StreamIsLayout(w[ValuesPerLine..]);
    }
  }

  lemma {:induction false} JoinHasNoLineBreak(row: seq<string>)
    requires forall i :: 0 <= i < |row| ==> '\n' !in row[i]
    ensures '\n' !in Join(row)
  {
    if |row| > 1 {
      JoinHasNoLineBreak(row[..|row| - 1]);
    }
  }

  /** n values take ⌈n/16⌉ lines: the body holds (n - 1) / 16 line breaks
      when no value contains one itself. */
  lemma {:induction false} LayoutLineBreaks(w: seq<string>)
    requires |w| >= 1
    requires forall i :: 0 <= i < |w| ==> '\n' !in w[i]
    ensures multiset(Layout(w))['\n'] == (|w| - 1) / ValuesPerLine
    decreases |w|
  {
    if |w| <= ValuesPerLine {
      JoinHasNoLineBreak(w);
    } else {
      var first := w[..ValuesPerLine];
      var rest := w[ValuesPerLine..];
      JoinHasNoLineBreak(first);
      LayoutLineBreaks(rest);
      assert '\n' !in RowText(first);
      assert multiset(RowText(first))['\n'] == 0;
      assert multiset(",\n")['\n'] == 1;
      assert Layout(w) == RowText(first) + ",\n" + Layout(rest);
      assert multiset(Layout(w)) == multiset(RowText(first)) + multiset(",\n") + multiset(Layout(rest));
      assert (|w| - 1) / ValuesPerLine == 1 + (|rest| - 1) / ValuesPerLine;
    }
  }

  lemma {:induction false} JoinEndsWithLast(row: seq<string>)
    requires |row| >= 1
    ensures var j := Join(row); var last := row[|row| - 1];
            |j| >= |last| && j[|j| - |last|..] == last
  {
  }

  /** No comma follows the last value: the body ends with it. */
  lemma {:induction false} LayoutEndsWithLastValue(w: seq<string>)
    requires |w| >= 1
    ensures var t := Layout(w); var last := w[|w| - 1];
            |t| >= |last| && t[|t| - |last|..] == last
    decreases |w|
  {
    if |w| <= ValuesPerLine {
      JoinEndsWithLast(w);
    } else {
      LayoutEndsWithLastValue(w[ValuesPerLine..]);
      assert w[ValuesPerLine..][|w[ValuesPerLine..]| - 1] == w[|w| - 1];
    }
  }

  /** Seventeen values: a full line of sixteen, then the seventeenth alone. */
  lemma SeventeenValues(w: seq<string>)
    requires |w| == 17
    ensures Layout(w) == RowText(w[..16]) + ",\n" + Indent + w[16]
  {
    assert w[16..] == [w[16]];
  }

  // ---------------------------------------------------------------------
  // The whole file.

  /** The printed form of each sample. */
  function Rendered(values: seq<int16>): (w: seq<string>)
    ensures |w| == |values|
    ensures forall i :: 0 <= i < |w| ==> w[i] == IntToDecimal(values[i])
  {
    if values == [] then []
    else Rendered(values[..|values| - 1]) + [IntToDecimal(values[|values| - 1])]
  }

  /** The comment block and the array declaration before the values. */
  function Opening(p: WaveParams, fmt: DoubleFormat, name: string, count: nat): string
    requires Valid(p)
  {
    "// Generated C array for sine wave data (1 cycle)\n"
    + "// Sample rate: " + NatToDecimal(p.sampleRate) + " Hz\n"
    + "// Frequency: " + fmt(p.frequency) + " Hz\n"
    + "// Amplitude: " + fmt(p.amplitude) + "\n"
    + "// Samples per cycle: " + NatToDecimal(count) + "\n"
    + "// Cycle duration: " + fmt(1.0 / p.frequency) + " seconds\n\n"
    + "#include <stdint.h>\n\n"
    + "const int16_t " + name + "[] = {\n"
  }

  function SizeLine(name: string, count: nat): string
  {
    "const size_t " + name + "_size = " + NatToDecimal(count) + ";\n"
  }

  function SampleRateLine(name: string, sampleRate: uint32): string
  {
    "const uint32_t " + name + "_sample_rate = " + NatToDecimal(sampleRate) + ";\n"
  }

  /** The closing brace and the three trailer constants. */
  function Closing(p: WaveParams, fmt: DoubleFormat, name: string, count: nat): string
  {
    "\n};\n\n"
    + SizeLine(name, count)
    + "const double " + name + "_frequency = " + fmt(p.frequency) + ";\n"
    + SampleRateLine(name, p.sampleRate)
  }

  /** The file, with the values laid out line by line. */
  function CycleText(p: WaveParams, fmt: DoubleFormat, name: string, values: seq<int16>): string
    requires Valid(p)
  {
    Opening(p, fmt, name, |values|) + Layout(Rendered(values)) + Closing(p, fmt, name, |values|)
  }

  /** `saveOneCycleAsCArray`: computes one period of samples and writes
      them as C source. Returns `None` (false) without creating the file
      when a period is shorter than one sample or the file cannot be
      created. */
  method SaveOneCycleAsCArray(p: WaveParams, sine: SineOracle, fmt: DoubleFormat,
                              canOpen: bool, arrayName: string)
    returns (file: Option<string>)
    requires Valid(p)
    ensures file.None? <==> SamplesPerCycle(p) == 0 || !canOpen
    ensures file.Some? ==>
              file.value == CycleText(p, fmt, arrayName, SineBuffer(p, sine, SamplesPerCycle(p)))
  {
    var samplesPerCycle := SamplesPerCycle(p);
    if samplesPerCycle == 0 {
      return None;
    }
    var cycle := Synthesize(p, sine, samplesPerCycle);
    if !canOpen {
      return None;
    }
    var text := Opening(p, fmt, arrayName, samplesPerCycle);
    text := AppendValues(text, cycle);
    text := text + Closing(p, fmt, arrayName, samplesPerCycle);
    assert cycle == SineBuffer(p, sine, samplesPerCycle);
    return Some(text);
  }

  /** `saveOneCycleAsCArray` called without an array name: the default
      name `sine_wave_data` is used. */
  method SaveOneCycleWithDefaultName(p: WaveParams, sine: SineOracle, fmt: DoubleFormat, canOpen: bool)
    returns (file: Option<string>)
    requires Valid(p)
    ensures file.None? <==> SamplesPerCycle(p) == 0 || !canOpen
    ensures file.Some? ==>
              file.value == CycleText(p, fmt, DefaultCycleArrayName, SineBuffer(p, sine, SamplesPerCycle(p)))
  {
    file := SaveOneCycleAsCArray(p, sine, fmt, canOpen, DefaultCycleArrayName);
  }

  /** The value-writing loop of `saveOneCycleAsCArray`: appends the values
      to `opening`, and what it appends is the line-by-line layout. */
  method AppendValues(opening: string, values: seq<int16>) returns (text: string)
    ensures text == opening + Layout(Rendered(values))
  {
    text := StreamValues(opening, values);
    StreamIsLayout(Rendered(values));
  }

  /** The loop itself: after it, all values have been streamed. */
  method StreamValues(opening: string, values: seq<int16>) returns (text: string)
    ensures text == opening + Streamed(Rendered(values), |values|)
  {
    text := opening;
    var i := 0;
    while i < |values|
      invariant 0 <= i <= |values|
      invariant text == opening + Streamed(Rendered(values), i)
    {
      text := AppendValue(opening, text, values, i);
      i := i + 1;
    }
  }

  /** One more pass of the loop extends the text by one piece. */
  lemma StreamStep(opening: string, w: seq<string>, i: nat, before: string, after: string)
    requires i < |w|
    requires before == opening + Streamed(w, i)
    requires after == before + Piece(w, i)
    ensures after == opening + Streamed(w, i + 1)
  {
    Append(opening, Streamed(w, i), Piece(w, i));
  }

  /** One pass of the loop: the indent, value i and its separator, appended
      to the text written so far. */
  method AppendValue(ghost opening: string, text0: string, values: seq<int16>, i: nat)
    returns (text: string)
    requires i < |values|
    requires text0 == opening + Streamed(Rendered(values), i)
    ensures text == opening + Streamed(Rendered(values), i + 1)
  {
    text := text0;
    if i % ValuesPerLine == 0 {
      text := text + Indent;
    }
    assert text == text0 + Lead(i);
    text := text + IntToDecimal(values[i]);
    ghost var valueWritten := text;
    if i < |values| - 1 {
      text := text + ",";
      if (i + 1) % ValuesPerLine == 0 {
        text := text + "\n";
      } else {
        text := text + " ";
      }
    }
    assert text == valueWritten + Separator(|values|, i);
    Append3(text0, Lead(i), IntToDecimal(values[i]), Separator(|values|, i));
    StreamStep(opening, Rendered(values), i, text0, text);
  }

  /** The size trailer reads back as the number of values in the array. */
  lemma SizeTrailerReadsBack(name: string, count: nat)
    ensures var head := "const size_t " + name + "_size = ";
            var line := SizeLine(name, count);
            && |head| + 2 <= |line|
            && line[..|head|] == head
            && line[|line| - 2..] == ";\n"
            && AllDigits(line[|head|..|line| - 2])
            && DigitsValue(line[|head|..|line| - 2]) == count
  {
    var head := "const size_t " + name + "_size = ";
    var digits := NatToDecimal(count);
    var line := SizeLine(name, count);
    assert line == head + digits + ";\n";
    assert line[|head|..|line| - 2] == digits;
    DigitsValueOfDecimal(count);
  }

  /** The sample-rate trailer reads back as the sample rate. */
  lemma SampleRateTrailerReadsBack(name: string, sampleRate: uint32)
    ensures var head := "const uint32_t " + name + "_sample_rate = ";
            var line := SampleRateLine(name, sampleRate);
            && |head| + 2 <= |line|
            && line[..|head|] == head
            && line[|line| - 2..] == ";\n"
            && AllDigits(line[|head|..|line| - 2])
            && DigitsValue(line[|head|..|line| - 2]) == sampleRate
  {
    var head := "const uint32_t " + name + "_sample_rate = ";
    var digits := NatToDecimal(sampleRate);
    var line := SampleRateLine(name, sampleRate);
    assert line == head + digits + ";\n";
    assert line[|head|..|line| - 2] == digits;
    DigitsValueOfDecimal(sampleRate);
  }

  /** For n >= 1 values the array body holds ⌈n/16⌉ lines, and its last
      value is not followed by a comma. */
  lemma BodyShape(values: seq<int16>)
    requires |values| >= 1
    ensures var body := Layout(Rendered(values));
            var last := IntToDecimal(values[|values| - 1]);
            && multiset(body)['\n'] == (|values| - 1) / ValuesPerLine
            && |body| >= |last| && body[|body| - |last|..] == last
  {
    var w := Rendered(values);
    assert w[|w| - 1] == IntToDecimal(values[|values| - 1]);
    forall i | 0 <= i < |w| ensures '\n' !in w[i] {
      DecimalHasNoSeparators(values[i]);
    }
    LayoutLineBreaks(w);
    LayoutEndsWithLastValue(w);
  }

  /** 44100 Hz at 440 Hz: one period is 100 samples. */
  lemma CycleOf440HzAt44100(p: WaveParams)
    requires Valid(p) && p.sampleRate == 44100 && p.frequency == 440.0
    ensures SamplesPerCycle(p) == 100
  {
  }
}
