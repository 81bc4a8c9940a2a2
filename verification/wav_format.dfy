/** The 44-byte header of a canonical RIFF/WAVE file: thirteen fields laid
    out one after another, little-endian, with no padding. */
module WavFormat {
  import opened Ints
  import LittleEndian

  /** A four-character chunk identifier, stored as its four ASCII bytes. */
  type Tag = s: seq<byte> | |s| == 4 witness [0, 0, 0, 0]

  function Ascii(s: string): (r: seq<byte>)
    requires forall i :: 0 <= i < |s| ==> s[i] as int < 0x100
    ensures |r| == |s|
  {
    seq(|s|, i requires 0 <= i < |s| => s[i] as int)
  }

  const RIFF: Tag := Ascii("RIFF")
  const WAVE: Tag := Ascii("WAVE")
  const FMT: Tag := Ascii("fmt ")
  const DATA: Tag := Ascii("data")

  datatype WavHeader = WavHeader(
    riff: Tag,
    chunkSize: uint32,      // file size minus 8
    wave: Tag,
    fmt: Tag,
    fmtSize: uint32,        // size of the format chunk body
    format: uint16,         // audio format tag
    channels: uint16,
    sampleRate: uint32,
    byteRate: uint32,
    blockAlign: uint16,
    bitsPerSample: uint16,
    data: Tag,
    dataSize: uint32)       // number of sample bytes that follow

  const HeaderSize: nat := 44

  /** Bytes each of the thirteen fields occupies, in declaration order:
      4 for tags and `uint32_t` fields, 2 for `uint16_t` fields. */
  const Widths: seq<nat> := [4, 4, 4, 4, 4, 2, 2, 4, 4, 2, 2, 4, 4]

  /** The byte offset of each field. */
  const Offsets: seq<nat> := [0, 4, 8, 12, 16, 20, 22, 24, 28, 32, 34, 36, 40]

  /** The bytes of each field, in declaration order, multi-byte integers
      little-endian. */
  function Images(h: WavHeader): (ps: seq<seq<byte>>)
    ensures |ps| == |Widths|
  {
    [h.riff, LittleEndian.Encode(h.chunkSize, 4), h.wave, h.fmt,
     LittleEndian.Encode(h.fmtSize, 4), LittleEndian.Encode(h.format, 2),
     LittleEndian.Encode(h.channels, 2), LittleEndian.Encode(h.sampleRate, 4),
     LittleEndian.Encode(h.byteRate, 4), LittleEndian.Encode(h.blockAlign, 2),
     LittleEndian.Encode(h.bitsPerSample, 2), h.data, LittleEndian.Encode(h.dataSize, 4)]
  }

  function Sum(ws: seq<nat>): nat
  {
    if ws == [] then 0 else Sum(ws[..|ws| - 1]) + ws[|ws| - 1]
  }

  /** Where each piece starts when pieces of the given widths are laid end
      to end: the running sums of the widths. */
  function Starts(ws: seq<nat>): (r: seq<nat>)
    ensures |r| == |ws|
  {
    if ws == [] then [] else Starts(ws[..|ws| - 1]) + [Sum(ws[..|ws| - 1])]
  }

  /** Pieces laid end to end. */
  function Concat(ps: seq<seq<byte>>): seq<byte>
  {
    if ps == [] then [] else Concat(ps[..|ps| - 1]) + ps[|ps| - 1]
  }

  /** `b` cut into consecutive pieces of the given widths. */
  function Cut(b: seq<byte>, ws: seq<nat>): (ps: seq<seq<byte>>)
    requires |b| == Sum(ws)
    ensures |ps| == |ws|
    ensures forall k :: 0 <= k < |ps| ==> |ps[k]| == ws[k]
    decreases |ws|
  {
    if ws == [] then []
    else
      var n := |b| - ws[|ws| - 1];
      Cut(b[..n], ws[..|ws| - 1]) + [b[n..]]
  }

  /** The header as it lies in memory and in the file: every field is
      naturally aligned, so the struct has no padding and its fields follow
      one another. */
  function EncodeHeader(h: WavHeader): (r: seq<byte>)
    ensures |r| == HeaderSize
  {
    HeaderWidths(h);
    ConcatLength(Images(h), Widths);
    HeaderSizeIsSumOfWidths();
    Concat(Images(h))
  }

  function U16(b: seq<byte>): uint16
    requires |b| == 2
  {
    var v := LittleEndian.Decode(b);
    assert Pow256(2) == 0x1_0000;
    v
  }

  function U32(b: seq<byte>): uint32
    requires |b| == 4
  {
    var v := LittleEndian.Decode(b);
    assert Pow256(4) == 0x1_0000_0000;
    v
  }

  /** Reads a header back from its 44 bytes, field by field. */
  function DecodeHeader(b: seq<byte>): WavHeader
    requires |b| == HeaderSize
  {
    HeaderSizeIsSumOfWidths();
    var s := Cut(b, Widths);
    WavHeader(s[0], U32(s[1]), s[2], s[3], U32(s[4]), U16(s[5]), U16(s[6]),
              U32(s[7]), U32(s[8]), U16(s[9]), U16(s[10]), s[11], U32(s[12]))
  }

  // ---------------------------------------------------------------------
  // Laying pieces end to end and cutting them apart again.

  lemma {:induction false} ConcatLength(ps: seq<seq<byte>>, ws: seq<nat>)
    requires |ps| == |ws| && forall k :: 0 <= k < |ps| ==> |ps[k]| == ws[k]
    ensures |Concat(ps)| == Sum(ws)
  {
    if ps != [] {
      var n := |ps|;
      ConcatLength(ps[..n - 1], ws[..n - 1]);
    }
  }

  lemma {:induction false} ConcatCut(b: seq<byte>, ws: seq<nat>)
    requires |b| == Sum(ws)
    ensures Concat(Cut(b, ws)) == b
    decreases |ws|
  {
    if ws != [] {
      var n := |b| - ws[|ws| - 1];
      var front := Cut(b[..n], ws[..|ws| - 1]);
      var ps := front + [b[n..]];
      assert Cut(b, ws) == ps;
      assert ps[..|ps| - 1] == front;
      ConcatCut(b[..n], ws[..|ws| - 1]);
      assert b[..n] + b[n..] == b;
    }
  }

  lemma {:induction false} CutConcat(ps: seq<seq<byte>>, ws: seq<nat>)
    requires |ps| == |ws| && forall k :: 0 <= k < |ps| ==> |ps[k]| == ws[k]
    ensures |Concat(ps)| == Sum(ws)
    ensures Cut(Concat(ps), ws) == ps
  {
    ConcatLength(ps, ws);
    if ps != [] {
      var n := |ps|;
      var front := ps[..n - 1];
      var c := Concat(ps);
      assert c == Concat(front) + ps[n - 1];
      ConcatLength(front, ws[..n - 1]);
      assert c[..|Concat(front)|] == Concat(front);
      assert c[|Concat(front)|..] == ps[n - 1];
      CutConcat(front, ws[..n - 1]);
      assert front + [ps[n - 1]] == ps;
    }
  }

  /** Piece k of a cut is the slice of width `ws[k]` starting at `Starts(ws)[k]`. */
  lemma {:induction false} CutAt(b: seq<byte>, ws: seq<nat>, k: nat)
    requires |b| == Sum(ws) && k < |ws|
    ensures Starts(ws)[k] + ws[k] <= |b|
    ensures Cut(b, ws)[k] == b[Starts(ws)[k]..Starts(ws)[k] + ws[k]]
    decreases |ws|
  {
    var n := |ws|;
    var front := ws[..n - 1];
    var m := |b| - ws[n - 1];
    assert Cut(b, ws) == Cut(b[..m], front) + [b[m..]];
    assert Starts(ws) == Starts(front) + [Sum(front)];
    if k < n - 1 {
      CutAt(b[..m], front, k);
      assert ws[k] == front[k];
    }
  }

  // ---------------------------------------------------------------------
  // The header layout.

  /** Every field has its declared width. */
  lemma HeaderWidths(h: WavHeader)
    ensures forall k :: 0 <= k < |Widths| ==> |Images(h)[k]| == Widths[k]
  {
  }

  /** The widths add up to the 44 bytes of the header. */
  lemma HeaderSizeIsSumOfWidths()
    ensures Sum(Widths) == HeaderSize
  {
    var ws := Widths;
    assert Sum(ws[..1]) == 4;
    assert ws[..2][..1] == ws[..1];
    assert Sum(ws[..2]) == 8;
    assert ws[..3][..2] == ws[..2];
    assert Sum(ws[..3]) == 12;
    assert ws[..4][..3] == ws[..3];
    assert Sum(ws[..4]) == 16;
    assert ws[..5][..4] == ws[..4];
    assert Sum(ws[..5]) == 20;
    assert ws[..6][..5] == ws[..5];
    assert Sum(ws[..6]) == 22;
    assert ws[..7][..6] == ws[..6];
    assert Sum(ws[..7]) == 24;
    assert ws[..8][..7] == ws[..7];
    assert Sum(ws[..8]) == 28;
    assert ws[..9][..8] == ws[..8];
    assert Sum(ws[..9]) == 32;
    assert ws[..10][..9] == ws[..9];
    assert Sum(ws[..10]) == 34;
    assert ws[..11][..10] == ws[..10];
    assert Sum(ws[..11]) == 36;
    assert ws[..12][..11] == ws[..11];
    assert Sum(ws[..12]) == 40;
    assert ws[..13] == ws && ws[..13][..12] == ws[..12];
  }

  /** The byte offsets of the thirteen fields. */
  lemma HeaderOffsets()
    ensures Starts(Widths) == Offsets
  {
    var ws := Widths;
    HeaderSizeIsSumOfWidths();
    assert Starts(ws[..1]) == [0];
    assert ws[..2][..1] == ws[..1];
    assert Starts(ws[..2]) == [0, 4];
    assert ws[..3][..2] == ws[..2];
    assert Starts(ws[..3]) == [0, 4, 8];
    assert ws[..4][..3] == ws[..3];
    assert Starts(ws[..4]) == [0, 4, 8, 12];
    assert ws[..5][..4] == ws[..4];
    assert Starts(ws[..5]) == [0, 4, 8, 12, 16];
    assert ws[..6][..5] == ws[..5];
    assert Starts(ws[..6]) == [0, 4, 8, 12, 16, 20];
    assert ws[..7][..6] == ws[..6];
    assert Starts(ws[..7]) == [0, 4, 8, 12, 16, 20, 22];
    assert ws[..8][..7] == ws[..7];
    assert Starts(ws[..8]) == [0, 4, 8, 12, 16, 20, 22, 24];
    assert ws[..9][..8] == ws[..8];
    assert Starts(ws[..9]) == [0, 4, 8, 12, 16, 20, 22, 24, 28];
    assert ws[..10][..9] == ws[..9];
    assert Starts(ws[..10]) == [0, 4, 8, 12, 16, 20, 22, 24, 28, 32];
    assert ws[..11][..10] == ws[..10];
    assert Starts(ws[..11]) == [0, 4, 8, 12, 16, 20, 22, 24, 28, 32, 34];
    assert ws[..12][..11] == ws[..11];
    assert Starts(ws[..12]) == [0, 4, 8, 12, 16, 20, 22, 24, 28, 32, 34, 36];
    assert ws[..13] == ws && ws[..13][..12] == ws[..12];
  }

  /** The decoder reads the RIFF tag at offset 0, the chunk size at 4 and
      the WAVE tag at 8. */
  lemma DecodeReadsRiffChunk(b: seq<byte>)
    requires |b| == HeaderSize
    ensures var h := DecodeHeader(b);
            && h.riff == b[0..4]
            && h.chunkSize == LittleEndian.Decode(b[4..8])
            && h.wave == b[8..12]
  {
    HeaderSizeIsSumOfWidths();
    HeaderOffsets();
    var h := DecodeHeader(b);
    assert h.riff == b[0..4] by {
      CutAt(b, Widths, 0);
    }
    assert h.chunkSize == LittleEndian.Decode(b[4..8]) by {
      CutAt(b, Widths, 1);
    }
    assert h.wave == b[8..12] by {
      CutAt(b, Widths, 2);
    }
  }

  /** The decoder reads the format chunk's tag at offset 12, its size at
      16, the format at 20 and the channel count at 22. */
  lemma DecodeReadsFormatChunk(b: seq<byte>)
    requires |b| == HeaderSize
    ensures var h := DecodeHeader(b);
            && h.fmt == b[12..16]
            && h.fmtSize == LittleEndian.Decode(b[16..20])
            && h.format == LittleEndian.Decode(b[20..22])
            && h.channels == LittleEndian.Decode(b[22..24])
  {
    HeaderSizeIsSumOfWidths();
    HeaderOffsets();
    var h := DecodeHeader(b);
    assert h.fmt == b[12..16] by {
      CutAt(b, Widths, 3);
    }
    assert h.fmtSize == LittleEndian.Decode(b[16..20]) by {
      CutAt(b, Widths, 4);
    }
    assert h.format == LittleEndian.Decode(b[20..22]) by {
      CutAt(b, Widths, 5);
    }
    assert h.channels == LittleEndian.Decode(b[22..24]) by {
      CutAt(b, Widths, 6);
    }
  }

  /** The decoder reads the rest of the format chunk and the data chunk
      header at their offsets: sample rate at 24, byte rate at 28, block
      align at 32, bits per sample at 34, the data tag at 36 and the data
      size at 40. */
  lemma DecodeReadsRateAndData(b: seq<byte>)
    requires |b| == HeaderSize
    ensures var h := DecodeHeader(b);
            && h.sampleRate == LittleEndian.Decode(b[24..28])
            && h.byteRate == LittleEndian.Decode(b[28..32])
            && h.blockAlign == LittleEndian.Decode(b[32..34])
            && h.bitsPerSample == LittleEndian.Decode(b[34..36])
            && h.data == b[36..40]
            && h.dataSize == LittleEndian.Decode(b[40..44])
  {
    HeaderSizeIsSumOfWidths();
    HeaderOffsets();
    var h := DecodeHeader(b);
    assert h.sampleRate == LittleEndian.Decode(b[24..28]) by {
      CutAt(b, Widths, 7);
    }
    assert h.byteRate == LittleEndian.Decode(b[28..32]) by {
      CutAt(b, Widths, 8);
    }
    assert h.blockAlign == LittleEndian.Decode(b[32..34]) by {
      CutAt(b, Widths, 9);
    }
    assert h.bitsPerSample == LittleEndian.Decode(b[34..36]) by {
      CutAt(b, Widths, 10);
    }
    assert h.data == b[36..40] by {
      CutAt(b, Widths, 11);
    }
    assert h.dataSize == LittleEndian.Decode(b[40..44]) by {
      CutAt(b, Widths, 12);
    }
  }

  /** Decoding an encoded header gives the header back. */
  lemma DecodeEncodeHeader(h: WavHeader)
    ensures DecodeHeader(EncodeHeader(h)) == h
  {
    HeaderWidths(h);
    HeaderSizeIsSumOfWidths();
    CutConcat(Images(h), Widths);
    assert Cut(EncodeHeader(h), Widths) == Images(h);
    LittleEndian.DecodeEncode(h.chunkSize, 4);
    LittleEndian.DecodeEncode(h.fmtSize, 4);
    LittleEndian.DecodeEncode(h.format, 2);
    LittleEndian.DecodeEncode(h.channels, 2);
    LittleEndian.DecodeEncode(h.sampleRate, 4);
    LittleEndian.DecodeEncode(h.byteRate, 4);
    LittleEndian.DecodeEncode(h.blockAlign, 2);
    LittleEndian.DecodeEncode(h.bitsPerSample, 2);
    LittleEndian.DecodeEncode(h.dataSize, 4);
  }

  /** Every 44-byte string is the image of exactly one header. */
  lemma EncodeDecodeHeader(b: seq<byte>)
    requires |b| == HeaderSize
    ensures EncodeHeader(DecodeHeader(b)) == b
  {
    HeaderWidths(DecodeHeader(b));
    HeaderSizeIsSumOfWidths();
    var s := Cut(b, Widths);
    LittleEndian.EncodeDecode(s[1]);
    LittleEndian.EncodeDecode(s[4]);
    LittleEndian.EncodeDecode(s[5]);
    LittleEndian.EncodeDecode(s[6]);
    LittleEndian.EncodeDecode(s[7]);
    LittleEndian.EncodeDecode(s[8]);
    LittleEndian.EncodeDecode(s[9]);
    LittleEndian.EncodeDecode(s[10]);
    LittleEndian.EncodeDecode(s[12]);
    assert Images(DecodeHeader(b)) == s;
    ConcatCut(b, Widths);
  }
}
