/**
 * The canonical 44-byte RIFF/WAVE header for uncompressed PCM, following the
 * "Waveform Audio File Format" chapter of the Microsoft/IBM Multimedia
 * Programming Interface and Data Specifications 1.0, and the little-endian
 * 16-bit sample layout that follows it. Both the web encoder and the Android
 * recorder produce this format; this module states the format once and gives
 * a decoder for it, so that each producer can be checked against it.
 */
module Riff {

  import opened Types

  type Byte = b: int | 0 <= b < 256

  const Two16: nat := 0x1_0000
  const Two32: nat := 0x1_0000_0000

  /** A little-endian 16-bit field holding x modulo 2^16. */
  function Le16(x: nat): (r: seq<Byte>)
    ensures |r| == 2
  {
    [x % 0x100, (x / 0x100) % 0x100]
  }

  /** A little-endian 32-bit field holding x modulo 2^32. */
  function Le32(x: nat): (r: seq<Byte>)
    ensures |r| == 4
  {
    [x % 0x100, (x / 0x100) % 0x100, (x / 0x1_0000) % 0x100, (x / 0x100_0000) % 0x100]
  }

  function ReadLe16(b: seq<Byte>, off: nat): (r: nat)
    requires off + 2 <= |b|
    ensures r < Two16
  {
    b[off] as int + 0x100 * (b[off + 1] as int)
  }

  function ReadLe32(b: seq<Byte>, off: nat): (r: nat)
    requires off + 4 <= |b|
    ensures r < Two32
  {
    var b0, b1, b2, b3 := b[off] as int, b[off + 1] as int, b[off + 2] as int, b[off + 3] as int;
    b0 + 0x100 * b1 + 0x1_0000 * b2 + 0x100_0000 * b3
  }

  lemma Le16RoundTrip(x: nat)
    ensures ReadLe16(Le16(x), 0) == x % Two16
  {
    var q := x / 0x100;
    assert x == 0x100 * q + x % 0x100;
    assert q == 0x100 * (q / 0x100) + q % 0x100;
    assert x / Two16 == q / 0x100;
  }

  lemma Le32RoundTrip(x: nat)
    ensures ReadLe32(Le32(x), 0) == x % Two32
  {
    var q1 := x / 0x100;
    var q2 := x / 0x1_0000;
    var q3 := x / 0x100_0000;
    assert q2 == q1 / 0x100;
    assert q3 == q2 / 0x100;
    assert x / Two32 == q3 / 0x100;
    assert x == 0x100 * q1 + x % 0x100;
    assert q1 == 0x100 * q2 + q1 % 0x100;
    assert q2 == 0x100 * q3 + q2 % 0x100;
    assert q3 == 0x100 * (q3 / 0x100) + q3 % 0x100;
  }

  /** The four ASCII bytes of a chunk identifier. */
  const RiffTag: seq<Byte> := [0x52, 0x49, 0x46, 0x46]   // "RIFF"
  const WaveTag: seq<Byte> := [0x57, 0x41, 0x56, 0x45]   // "WAVE"
  const FmtTag: seq<Byte> := [0x66, 0x6d, 0x74, 0x20]    // "fmt "
  const DataTag: seq<Byte> := [0x64, 0x61, 0x74, 0x61]   // "data"

  /** The numeric fields of the canonical header, in file order. */
  datatype Header = Header(
    riffSize: nat,
    fmtSize: nat,
    formatTag: nat,
    channels: nat,
    sampleRate: nat,
    byteRate: nat,
    blockAlign: nat,
    bitsPerSample: nat,
    dataSize: nat)

  /** Every field fits the width the file gives it, so nothing is truncated. */
  predicate Fits(h: Header) {
    && h.riffSize < Two32 && h.fmtSize < Two32 && h.sampleRate < Two32
    && h.byteRate < Two32 && h.dataSize < Two32
    && h.formatTag < Two16 && h.channels < Two16
    && h.blockAlign < Two16 && h.bitsPerSample < Two16
  }

  /** The 44 header bytes; each field is written modulo its width. */
  function EncodeHeader(h: Header): (r: seq<Byte>)
    ensures |r| == 44
  {
    RiffTag + Le32(h.riffSize) + WaveTag
    + FmtTag + Le32(h.fmtSize) + Le16(h.formatTag) + Le16(h.channels)
    + Le32(h.sampleRate) + Le32(h.byteRate) + Le16(h.blockAlign) + Le16(h.bitsPerSample)
    + DataTag + Le32(h.dataSize)
  }

  /** Reads a canonical header back; None when the bytes are too short or a tag is wrong. */
  function DecodeHeader(b: seq<Byte>): (r: Option<Header>)
    ensures r.Some? ==> Fits(r.value)
  {
    if |b| < 44 || b[0..4] != RiffTag || b[8..12] != WaveTag
       || b[12..16] != FmtTag || b[36..40] != DataTag then
      None
    else
      Some(Header(
        ReadLe32(b, 4), ReadLe32(b, 16), ReadLe16(b, 20), ReadLe16(b, 22),
        ReadLe32(b, 24), ReadLe32(b, 28), ReadLe16(b, 32), ReadLe16(b, 34),
        ReadLe32(b, 40)))
  }

  /** The four chunk identifiers sit at offsets 0, 8, 12 and 36. */
  lemma EncodeHeaderTags(h: Header)
    ensures var r := EncodeHeader(h);
      r[0..4] == RiffTag && r[8..12] == WaveTag && r[12..16] == FmtTag && r[36..40] == DataTag
  {
  }

  /** A header is read exactly when there are 44 bytes and the four identifiers are in place. */
  lemma DecodeHeaderAccepts(b: seq<Byte>)
    ensures DecodeHeader(b).Some? <==>
      |b| >= 44 && b[0..4] == RiffTag && b[8..12] == WaveTag
      && b[12..16] == FmtTag && b[36..40] == DataTag
  {
  }

  lemma ReadLe32At(b: seq<Byte>, off: nat, x: nat)
    requires off + 4 <= |b| && b[off..off + 4] == Le32(x)
    ensures ReadLe32(b, off) == x % Two32
  {
    assert b[off] == Le32(x)[0] && b[off + 1] == Le32(x)[1];
    assert b[off + 2] == Le32(x)[2] && b[off + 3] == Le32(x)[3];
    Le32RoundTrip(x);
  }

  lemma ReadLe16At(b: seq<Byte>, off: nat, x: nat)
    requires off + 2 <= |b| && b[off..off + 2] == Le16(x)
    ensures ReadLe16(b, off) == x % Two16
  {
    assert b[off] == Le16(x)[0] && b[off + 1] == Le16(x)[1];
    Le16RoundTrip(x);
  }

  /** Where each numeric field of the header sits. */
  lemma EncodeHeaderFields(h: Header)
    ensures var r := EncodeHeader(h);
      && r[4..8] == Le32(h.riffSize) && r[16..20] == Le32(h.fmtSize)
      && r[20..22] == Le16(h.formatTag) && r[22..24] == Le16(h.channels)
      && r[24..28] == Le32(h.sampleRate) && r[28..32] == Le32(h.byteRate)
      && r[32..34] == Le16(h.blockAlign) && r[34..36] == Le16(h.bitsPerSample)
      && r[40..44] == Le32(h.dataSize)
  {
  }

  /** Decoding what was encoded gives every field back modulo its width. */
  lemma {:induction false} DecodeEncodeHeader(h: Header, payload: seq<Byte>)
    ensures DecodeHeader(EncodeHeader(h) + payload) == Some(Header(
      h.riffSize % Two32, h.fmtSize % Two32, h.formatTag % Two16, h.channels % Two16,
      h.sampleRate % Two32, h.byteRate % Two32, h.blockAlign % Two16,
      h.bitsPerSample % Two16, h.dataSize % Two32))
  {
    var e := EncodeHeader(h);
    EncodeHeaderTags(h);
    EncodeHeaderFields(h);
    var b := e + payload;
    assert b[..44] == e;
    assert forall i, j :: 0 <= i <= j <= 44 ==> b[i..j] == e[i..j];
    ReadLe32At(b, 4, h.riffSize);
    ReadLe32At(b, 16, h.fmtSize);
    ReadLe16At(b, 20, h.formatTag);
    ReadLe16At(b, 22, h.channels);
    ReadLe32At(b, 24, h.sampleRate);
    ReadLe32At(b, 28, h.byteRate);
    ReadLe16At(b, 32, h.blockAlign);
    ReadLe16At(b, 34, h.bitsPerSample);
    ReadLe32At(b, 40, h.dataSize);
  }

  /** The round trip is exact for a header whose fields fit. */
  lemma DecodeEncodeFits(h: Header, payload: seq<Byte>)
    requires Fits(h)
    ensures DecodeHeader(EncodeHeader(h) + payload) == Some(h)
  {
    DecodeEncodeHeader(h, payload);
    var d := Header(
      h.riffSize % Two32, h.fmtSize % Two32, h.formatTag % Two16, h.channels % Two16,
      h.sampleRate % Two32, h.byteRate % Two32, h.blockAlign % Two16,
      h.bitsPerSample % Two16, h.dataSize % Two32);
    ModSmall(h.riffSize, Two32); ModSmall(h.fmtSize, Two32); ModSmall(h.sampleRate, Two32);
    ModSmall(h.byteRate, Two32); ModSmall(h.dataSize, Two32);
    ModSmall(h.formatTag, Two16); ModSmall(h.channels, Two16);
    ModSmall(h.blockAlign, Two16); ModSmall(h.bitsPerSample, Two16);
    assert d == h;
  }

  lemma ModSmall(x: nat, m: nat)
    requires x < m
    ensures x % m == x
  {
  }

  // ---------------------------------------------------------------------------
  // 16-bit signed samples, little-endian, two's complement

  type Int16 = v: int | -0x8000 <= v < 0x8000

  /** A signed 16-bit value as two bytes, low byte first (two's complement). */
  function EncodeInt16(v: int): (r: seq<Byte>)
    ensures |r| == 2
  {
    Le16(v % Two16)
  }

  function DecodeInt16(lo: Byte, hi: Byte): (v: Int16)
  {
    var u := lo as int + 0x100 * (hi as int);
    if u >= 0x8000 then u - Two16 else u
  }

  lemma Int16RoundTrip(v: Int16)
    ensures var e := EncodeInt16(v); DecodeInt16(e[0], e[1]) == v
  {
    Le16RoundTrip(v % Two16);
  }

  /** Samples as consecutive little-endian pairs, in order. */
  function EncodeInt16s(vs: seq<int>): (r: seq<Byte>)
    ensures |r| == 2 * |vs|
    decreases |vs|
  {
    if vs == [] then [] else EncodeInt16s(vs[..|vs| - 1]) + EncodeInt16(vs[|vs| - 1])
  }

  /** Encoding two runs of samples one after the other gives the encoding of the joined run. */
  lemma {:induction false} EncodeInt16sAppend(a: seq<int>, b: seq<int>)
    ensures EncodeInt16s(a + b) == EncodeInt16s(a) + EncodeInt16s(b)
    decreases |b|
  {
    if b == [] {
      assert a + b == a;
    } else {
      var init := b[..|b| - 1];
      EncodeInt16sAppend(a, init);
      assert (a + b)[..|a + b| - 1] == a + init;
    }
  }

  /** The complete little-endian pairs of b as samples, in order; a trailing odd byte is ignored. */
  function DecodeInt16s(b: seq<Byte>): (vs: seq<Int16>)
    ensures |vs| == |b| / 2
    decreases |b|
  {
    if |b| < 2 then [] else [DecodeInt16(b[0], b[1])] + DecodeInt16s(b[2..])
  }

  /** Sample i is read from bytes 2i and 2i+1. */
  lemma {:induction false} DecodeInt16sAt(b: seq<Byte>, i: nat)
    requires i < |b| / 2
    ensures DecodeInt16s(b)[i] == DecodeInt16(b[2 * i], b[2 * i + 1])
    decreases i
  {
    if i > 0 {
      DecodeInt16sAt(b[2..], i - 1);
    }
  }

  /** Sample i occupies bytes 2i and 2i+1, low byte first. */
  lemma {:induction false} EncodeInt16sAt(vs: seq<int>, i: nat)
    requires i < |vs|
    ensures EncodeInt16s(vs)[2 * i..2 * i + 2] == EncodeInt16(vs[i])
    decreases |vs|
  {
    var init := vs[..|vs| - 1];
    if i < |vs| - 1 {
      EncodeInt16sAt(init, i);
      assert init[i] == vs[i];
      assert EncodeInt16s(vs)[..2 * |init|] == EncodeInt16s(init);
    } else {
      assert EncodeInt16s(vs)[2 * |init|..] == EncodeInt16(vs[i]);
    }
  }

  lemma Int16sRoundTrip(vs: seq<Int16>)
    ensures DecodeInt16s(EncodeInt16s(vs)) == vs
  {
    var b := EncodeInt16s(vs);
    forall i | 0 <= i < |vs|
      ensures DecodeInt16s(b)[i] == vs[i]
    {
      DecodeInt16sAt(b, i);
      EncodeInt16sAt(vs, i);
      assert b[2 * i] == EncodeInt16(vs[i])[0] && b[2 * i + 1] == EncodeInt16(vs[i])[1];
      Int16RoundTrip(vs[i]);
    }
  }
}
