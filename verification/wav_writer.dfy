/** The WAV writer: a mono 16-bit PCM header filled from the sample count
    and the sample rate, followed by the samples' bytes. */
module WavWriter {
  import opened Wrappers
  import opened Ints
  import opened WavFormat
  import LittleEndian

  const WAVE_FORMAT_PCM: uint16 := 1

  /** What the RIFF/WAVE format asks of the header of a mono, 16-bit,
      uncompressed PCM file: fixed tags and format chunk, a block as wide as
      one sample of every channel, a byte rate of one block per sample
      frame, and a RIFF chunk covering everything after its own 8 bytes.
      Sizes and rates are `uint32_t` and wrap modulo 2^32. */
  predicate CanonicalMono16(h: WavHeader)
  {
    && h.riff == RIFF && h.wave == WAVE && h.fmt == FMT && h.data == DATA
    && h.fmtSize == 16
    && h.format == WAVE_FORMAT_PCM
    && h.channels == 1
    && h.bitsPerSample == 16
    && h.blockAlign == h.channels * h.bitsPerSample / 8
    && h.byteRate == Wrap32(h.sampleRate * h.blockAlign)
    && h.chunkSize == Wrap32(HeaderSize - 8 + h.dataSize)
  }

  /** The header `saveAsWAV` fills in for `sampleCount` samples. */
  function MakeHeader(sampleCount: nat, sampleRate: uint32): (h: WavHeader)
    ensures CanonicalMono16(h)
    ensures h.sampleRate == sampleRate
    ensures h.dataSize == Wrap32(2 * sampleCount)
  {
    var dataSize := Wrap32(2 * sampleCount);
    WavHeader(
      riff := RIFF,
      chunkSize := Wrap32(36 + dataSize),
      wave := WAVE,
      fmt := FMT,
      fmtSize := 16,
      format := WAVE_FORMAT_PCM,
      channels := 1,
      sampleRate := sampleRate,
      byteRate := Wrap32(sampleRate * 2),
      blockAlign := 2,
      bitsPerSample := 16,
      data := DATA,
      dataSize := dataSize)
  }

  /** The sample bytes written: the first `data_size` bytes of the samples'
      memory image. When twice the sample count exceeds `uint32_t`, the
      truncated `data_size` cuts them short. */
  function SampleData(pcm: seq<int16>): (data: seq<byte>)
    ensures |data| == Wrap32(2 * |pcm|)
    ensures data <= LittleEndian.EncodeSamples(pcm)
    ensures 2 * |pcm| <= UINT32_MAX ==> data == LittleEndian.EncodeSamples(pcm)
  {
    var image := LittleEndian.EncodeSamples(pcm);
    assert image[..|image|] == image;
    image[..Wrap32(2 * |pcm|)]
  }

  /** The file's bytes: the header, then the sample data. */
  function WavFile(pcm: seq<int16>, sampleRate: uint32): (bytes: seq<byte>)
    ensures |bytes| == HeaderSize + Wrap32(2 * |pcm|)
    ensures 2 * |pcm| <= UINT32_MAX ==> |bytes| == HeaderSize + 2 * |pcm|
  {
    EncodeHeader(MakeHeader(|pcm|, sampleRate)) + SampleData(pcm)
  }

  /** `saveAsWAV`: nothing is written and `None` (false) is returned when
      the file cannot be created; otherwise the whole file is written. */
  function SaveAsWav(pcm: seq<int16>, sampleRate: uint32, canOpen: bool): (file: Option<seq<byte>>)
    ensures file.None? <==> !canOpen
    ensures file.Some? ==> file.value == WavFile(pcm, sampleRate)
  {
    if !canOpen then None else Some(WavFile(pcm, sampleRate))
  }
}

/** What a reader finds in a file written by the WAV writer: the header
    fields, the position of every sample, and the samples themselves. */
module WavReadBack {
  import opened Ints
  import opened WavFormat
  import opened WavWriter
  import LittleEndian

  /** Reading the header back from a written file gives a canonical mono
      16-bit header carrying the sample rate and the size of the sample data. */
  lemma HeaderReadBack(pcm: seq<int16>, sampleRate: uint32)
    ensures var h := DecodeHeader(WavFile(pcm, sampleRate)[..HeaderSize]);
            && CanonicalMono16(h)
            && h.sampleRate == sampleRate
            && h.channels == 1 && h.bitsPerSample == 16
            && h.dataSize == Wrap32(2 * |pcm|)
            && (2 * |pcm| <= UINT32_MAX ==> h.dataSize == 2 * |pcm|)
  {
    HeaderDecodes(pcm, sampleRate);
  }

  /** The RIFF chunk header as a reader finds it in the file: the tag
      "RIFF", the chunk size 36 + data size modulo 2^32 at offset 4, and
      the tag "WAVE". */
  lemma RiffChunkInFile(pcm: seq<int16>, sampleRate: uint32)
    ensures var b := WavFile(pcm, sampleRate)[..HeaderSize];
            && b[0..4] == RIFF
            && LittleEndian.Decode(b[4..8]) == Wrap32(36 + Wrap32(2 * |pcm|))
            && b[8..12] == WAVE
  {
    HeaderDecodes(pcm, sampleRate);
    DecodeReadsRiffChunk(WavFile(pcm, sampleRate)[..HeaderSize]);
  }

  /** The start of the format chunk as a reader finds it: the tag "fmt ",
      body size 16, format 1 (PCM) and one channel, little-endian. */
  lemma FormatChunkInFile(pcm: seq<int16>, sampleRate: uint32)
    ensures var b := WavFile(pcm, sampleRate)[..HeaderSize];
            && b[12..16] == FMT
            && LittleEndian.Decode(b[16..20]) == 16
            && LittleEndian.Decode(b[20..22]) == WAVE_FORMAT_PCM
            && LittleEndian.Decode(b[22..24]) == 1
  {
    HeaderDecodes(pcm, sampleRate);
    DecodeReadsFormatChunk(WavFile(pcm, sampleRate)[..HeaderSize]);
  }

  /** The rest of the header as a reader finds it: the sample rate at
      offset 24, twice it (modulo 2^32) as the byte rate, a block of 2
      bytes, 16 bits per sample, the tag "data" and the data size. */
  lemma RateAndDataInFile(pcm: seq<int16>, sampleRate: uint32)
    ensures var b := WavFile(pcm, sampleRate)[..HeaderSize];
            && LittleEndian.Decode(b[24..28]) == sampleRate
            && LittleEndian.Decode(b[28..32]) == Wrap32(2 * sampleRate)
            && LittleEndian.Decode(b[32..34]) == 2
            && LittleEndian.Decode(b[34..36]) == 16
            && b[36..40] == DATA
            && LittleEndian.Decode(b[40..44]) == Wrap32(2 * |pcm|)
  {
    HeaderDecodes(pcm, sampleRate);
    DecodeReadsRateAndData(WavFile(pcm, sampleRate)[..HeaderSize]);
  }

  /** The header read back from a written file is the one the writer made. */
  lemma HeaderDecodes(pcm: seq<int16>, sampleRate: uint32)
    ensures DecodeHeader(WavFile(pcm, sampleRate)[..HeaderSize]) == MakeHeader(|pcm|, sampleRate)
  {
    var h := MakeHeader(|pcm|, sampleRate);
    LittleEndian.Split(WavFile(pcm, sampleRate), EncodeHeader(h), SampleData(pcm));
    DecodeEncodeHeader(h);
  }

  /** After the 44 header bytes come the sample data. */
  lemma AfterHeader(pcm: seq<int16>, sampleRate: uint32)
    ensures WavFile(pcm, sampleRate)[HeaderSize..] == SampleData(pcm)
  {
    LittleEndian.Split(WavFile(pcm, sampleRate), EncodeHeader(MakeHeader(|pcm|, sampleRate)), SampleData(pcm));
  }

  /** When nothing is cut off, the header is followed by the whole byte
      image of the buffer. */
  lemma DataFollowsHeader(pcm: seq<int16>, sampleRate: uint32)
    requires 2 * |pcm| <= UINT32_MAX
    ensures WavFile(pcm, sampleRate)[HeaderSize..] == LittleEndian.EncodeSamples(pcm)
  {
    AfterHeader(pcm, sampleRate);
  }

  /** The bytes after the header decode back to the buffer, sample for sample. */
  lemma SamplesReadBack(pcm: seq<int16>, sampleRate: uint32)
    requires 2 * |pcm| <= UINT32_MAX
    ensures var data := WavFile(pcm, sampleRate)[HeaderSize..];
            data == LittleEndian.EncodeSamples(pcm) && LittleEndian.DecodeSamples(data) == pcm
  {
    DataFollowsHeader(pcm, sampleRate);
    LittleEndian.SamplesRoundTrip(pcm);
  }

  /** Sample i is stored at byte 44 + 2i, low byte first, whenever the
      written data reaches it. */
  lemma SampleStoredAt(pcm: seq<int16>, sampleRate: uint32, i: nat)
    requires i < |pcm| && 2 * i + 2 <= Wrap32(2 * |pcm|)
    ensures var f := WavFile(pcm, sampleRate);
            f[HeaderSize + 2 * i..HeaderSize + 2 * i + 2] == LittleEndian.SampleBytes(pcm[i])
  {
    var header := EncodeHeader(MakeHeader(|pcm|, sampleRate));
    var data := SampleData(pcm);
    LittleEndian.SliceOfTail(WavFile(pcm, sampleRate), header, data, 2 * i, 2 * i + 2);
    LittleEndian.SliceOfPrefix(LittleEndian.EncodeSamples(pcm), data, 2 * i, 2 * i + 2);
    LittleEndian.SampleBytesAt(pcm, i);
  }

  /** The header's RIFF chunk size is the file size minus 8 exactly when
      `36 + data_size` does not wrap around. */
  lemma ChunkSizeIsFileSizeMinus8(pcm: seq<int16>, sampleRate: uint32)
    ensures var h := MakeHeader(|pcm|, sampleRate);
            h.chunkSize == |WavFile(pcm, sampleRate)| - 8 <==> 36 + h.dataSize <= UINT32_MAX
  {
  }
}
