/** Little-endian byte encoding of unsigned integers and of 16-bit two's
    complement samples: the memory image that `file.write` copies out on a
    little-endian host. */
module LittleEndian {
  import opened Ints

  /** The `width` low-order bytes of x, least significant first. */
  function Encode(x: nat, width: nat): (r: seq<byte>)
    ensures |r| == width
  {
    if width == 0 then [] else [x % 256] + Encode(x / 256, width - 1)
  }

  /** The unsigned value of a little-endian byte string. */
  function Decode(b: seq<byte>): (r: nat)
    ensures r < Pow256(|b|)
  {
    if b == [] then 0 else b[0] + 256 * Decode(b[1..])
  }

  lemma {:induction false} DecodeEncode(x: nat, width: nat)
    requires x < Pow256(width)
    ensures Decode(Encode(x, width)) == x
  {
    if width > 0 {
      var e := Encode(x, width);
      assert e[1..] == Encode(x / 256, width - 1);
      DecodeEncode(x / 256, width - 1);
    }
  }

  lemma {:induction false} EncodeDecode(b: seq<byte>)
    ensures Encode(Decode(b), |b|) == b
  {
    if b != [] {
      var x := Decode(b);
      assert x % 256 == b[0] && x / 256 == Decode(b[1..]);
      EncodeDecode(b[1..]);
    }
  }

  /** The two bytes of an `int16_t` in memory: two's complement, low byte first. */
  function SampleBytes(s: int16): (r: seq<byte>)
    ensures |r| == 2
  {
    Encode(if s < 0 then s + 0x1_0000 else s, 2)
  }

  /** Reads two bytes back as an `int16_t`. */
  function DecodeSample(b: seq<byte>): (r: int16)
    requires |b| == 2
  {
    var u := Decode(b);
    assert u < 0x1_0000 by { assert Pow256(2) == 0x1_0000; }
    if u >= 0x8000 then u - 0x1_0000 else u
  }

  lemma SampleRoundTrip(s: int16)
    ensures DecodeSample(SampleBytes(s)) == s
  {
    assert Pow256(2) == 0x1_0000;
    DecodeEncode(if s < 0 then s + 0x1_0000 else s, 2);
  }

  /** The byte image of a sample buffer, in buffer order. */
  function EncodeSamples(pcm: seq<int16>): (r: seq<byte>)
    ensures |r| == 2 * |pcm|
    ensures |r| % 2 == 0
  {
    if pcm == [] then [] else EncodeSamples(pcm[..|pcm| - 1]) + SampleBytes(pcm[|pcm| - 1])
  }

  /** Reads a byte image back as samples, two bytes per sample. */
  function DecodeSamples(b: seq<byte>): (r: seq<int16>)
    requires |b| % 2 == 0
    ensures |r| == |b| / 2
  {
    if b == [] then [] else DecodeSamples(b[..|b| - 2]) + [DecodeSample(b[|b| - 2..])]
  }

  /** Sample i occupies bytes 2i and 2i+1 of the image. */
  lemma {:induction false} SampleBytesAt(pcm: seq<int16>, i: nat)
    requires i < |pcm|
    ensures EncodeSamples(pcm)[2 * i..2 * i + 2] == SampleBytes(pcm[i])
  {
    var n := |pcm|;
    var front := EncodeSamples(pcm[..n - 1]);
    assert EncodeSamples(pcm) == front + SampleBytes(pcm[n - 1]);
    if i < n - 1 {
      SampleBytesAt(pcm[..n - 1], i);
      assert EncodeSamples(pcm)[2 * i..2 * i + 2] == front[2 * i..2 * i + 2];
    }
  }

  lemma {:induction false} SamplesRoundTrip(pcm: seq<int16>)
    ensures DecodeSamples(EncodeSamples(pcm)) == pcm
  {
    if pcm != [] {
      var n := |pcm|;
      var front := EncodeSamples(pcm[..n - 1]);
      var last := SampleBytes(pcm[n - 1]);
      var b := EncodeSamples(pcm);
      Split(b, front, last);
      assert DecodeSamples(b) == DecodeSamples(front) + [DecodeSample(last)];
      SamplesRoundTrip(pcm[..n - 1]);
      SampleRoundTrip(pcm[n - 1]);
      assert pcm[..n - 1] + [pcm[n - 1]] == pcm;
    }
  }

  /** The two parts of a concatenation, cut apart again. */
  lemma Split(b: seq<byte>, head: seq<byte>, rest: seq<byte>)
    requires b == head + rest
    ensures b[..|head|] == head && b[|head|..] == rest
  {
  }

  /** A slice inside the second part of a concatenation. */
  lemma SliceOfTail(b: seq<byte>, head: seq<byte>, rest: seq<byte>, lo: nat, hi: nat)
    requires b == head + rest && lo <= hi <= |rest|
    ensures b[|head| + lo..|head| + hi] == rest[lo..hi]
  {
  }

  /** A slice inside a prefix is the same slice of the whole. */
  lemma SliceOfPrefix(a: seq<byte>, prefix: seq<byte>, lo: nat, hi: nat)
    requires prefix <= a && lo <= hi <= |prefix|
    ensures prefix[lo..hi] == a[lo..hi]
  {
  }
}
