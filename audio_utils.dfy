/**
 * services/audioUtils.ts: the WAV encoder that fills a DataView byte by byte,
 * the float-to-int16 sample conversion, the safety-level thresholds and the
 * spectral classifier.
 *
 * The DataView is an `array<Byte>`; each DataView write is a method whose
 * postcondition says which bytes it replaced (`Splice`). The loudness
 * estimator (calculateDecibels) works in IEEE floating point with sqrt and
 * log10 and is not part of this model: callers receive its result as a
 * non-negative integer parameter.
 */
module AudioUtils {

  import opened Types
  import opened Riff

  // ---------------------------------------------------------------------------
  // Byte-level writes into a DataView

  /** The bytes of `s` after `b` has been written at offset `off`. */
  function Splice(s: seq<Byte>, off: nat, b: seq<Byte>): (r: seq<Byte>)
    requires off + |b| <= |s|
    ensures |r| == |s|
  {
    s[..off] + b + s[off + |b|..]
  }

  lemma SpliceAdjacent(s: seq<Byte>, off: nat, a: seq<Byte>, b: seq<Byte>)
    requires off + |a| + |b| <= |s|
    ensures Splice(Splice(s, off, a), off + |a|, b) == Splice(s, off, a + b)
  {
    var t := Splice(s, off, a);
    assert t[..off + |a|] == s[..off] + a;
    assert t[off + |a| + |b|..] == s[off + |a| + |b|..];
  }

  lemma SpliceAt(s: seq<Byte>, off: nat, b: seq<Byte>, j: nat)
    requires off + |b| <= |s| && j < |s|
    ensures Splice(s, off, b)[j] == if off <= j < off + |b| then b[j - off] else s[j]
  {
  }

  lemma SpliceWhole(s: seq<Byte>, b: seq<Byte>)
    requires |b| == |s|
    ensures Splice(s, 0, b) == b
  {
  }

  /** setUint8 of a UTF-16 code unit keeps its low eight bits. */
  function CharByte(c: char): Byte {
    (c as int) % 0x100
  }

  function Ascii(s: string): (r: seq<Byte>)
    ensures |r| == |s|
  {
    seq(|s|, i requires 0 <= i < |s| => CharByte(s[i]))
  }

  /** writeString: one byte per character, starting at `offset`. */
  method WriteString(view: array<Byte>, offset: nat, str: string)
    requires offset + |str| <= view.Length
    modifies view
    ensures view[..] == Splice(old(view[..]), offset, Ascii(str))
  {
    for i := 0 to |str|
      invariant forall j :: 0 <= j < view.Length && !(offset <= j < offset + i) ==> view[j] == old(view[j])
      invariant forall j :: offset <= j < offset + i ==> view[j] == CharByte(str[j - offset])
    {
      view[offset + i] := CharByte(str[i]);
    }
    forall j | 0 <= j < view.Length
      ensures view[..][j] == Splice(old(view[..]), offset, Ascii(str))[j]
    {
      SpliceAt(old(view[..]), offset, Ascii(str), j);
    }
  }

  /** DataView.setUint32(offset, v, true): ToUint32, low byte first. */
  method SetUint32(view: array<Byte>, offset: nat, v: nat)
    requires offset + 4 <= view.Length
    modifies view
    ensures view[..] == Splice(old(view[..]), offset, Le32(v))
  {
    var b := Le32(v);
    view[offset], view[offset + 1], view[offset + 2], view[offset + 3] := b[0], b[1], b[2], b[3];
  }

  /** DataView.setUint16(offset, v, true): ToUint16, low byte first. */
  method SetUint16(view: array<Byte>, offset: nat, v: nat)
    requires offset + 2 <= view.Length
    modifies view
    ensures view[..] == Splice(old(view[..]), offset, Le16(v))
  {
    var b := Le16(v);
    view[offset], view[offset + 1] := b[0], b[1];
  }

  /** DataView.setInt16(offset, v, true): two's complement, low byte first. */
  method SetInt16(view: array<Byte>, offset: nat, v: int)
    requires offset + 2 <= view.Length
    modifies view
    ensures view[..] == Splice(old(view[..]), offset, EncodeInt16(v))
  {
    var b := EncodeInt16(v);
    view[offset], view[offset + 1] := b[0], b[1];
  }

  // ---------------------------------------------------------------------------
  // Float samples to 16-bit PCM

  function Clamp(x: real): (r: real)
    ensures -1.0 <= r <= 1.0
    ensures -1.0 <= x <= 1.0 ==> r == x
  {
    if x < -1.0 then -1.0 else if x > 1.0 then 1.0 else x
  }

  /** ECMAScript ToIntegerOrInfinity on a finite number: truncation toward zero. */
  function Trunc(x: real): (r: int)
    ensures x >= 0.0 ==> r as real <= x < r as real + 1.0
    ensures x < 0.0 ==> r as real - 1.0 < x <= r as real
  {
    if x >= 0.0 then x.Floor else -((-x).Floor)
  }

  /** ECMAScript ToInt16: truncate, then wrap into the signed 16-bit range. */
  function ToInt16(x: real): (r: Int16)
    ensures (r - Trunc(x)) % Two16 == 0
    ensures -0x8000 <= Trunc(x) < 0x8000 ==> r == Trunc(x)
  {
    (Trunc(x) + 0x8000) % Two16 - 0x8000
  }

  /**
   * One sample as floatTo16BitPCM writes it: clamp to [-1, 1], scale negative
   * values by 0x8000 and the others by 0x7FFF, convert with ToInt16. Because of
   * the clamp the wrap-around of ToInt16 never applies.
   */
  function Quantize(x: real): (v: Int16)
    ensures v == Trunc(if Clamp(x) < 0.0 then Clamp(x) * 32768.0 else Clamp(x) * 32767.0)
    ensures x >= 1.0 ==> v == 0x7FFF
    ensures x <= -1.0 ==> v == -0x8000
    ensures (x <= 0.0 ==> v <= 0) && (x >= 0.0 ==> v >= 0)
  {
    var s := Clamp(x);
    var scaled := if s < 0.0 then s * 32768.0 else s * 32767.0;
    assert -32768.0 <= scaled <= 32767.0;
    var t := Trunc(scaled);
    assert -0x8000 <= t < 0x8000;
    assert (t + 0x8000) % Two16 == t + 0x8000;
    ToInt16(scaled)
  }

  function Quantized(xs: seq<real>): (vs: seq<Int16>)
    ensures |vs| == |xs|
    ensures forall i :: 0 <= i < |xs| ==> vs[i] == Quantize(xs[i])
  {
    seq(|xs|, i requires 0 <= i < |xs| => Quantize(xs[i]))
  }

  /** The PCM payload encodeWAV writes after the header. */
  function PcmBytes(xs: seq<real>): (r: seq<Byte>)
    ensures |r| == 2 * |xs|
  {
    EncodeInt16s(Quantized(xs))
  }

  /** floatTo16BitPCM: sample i goes to offset + 2i, advancing the offset by two. */
  method FloatTo16BitPCM(output: array<Byte>, offset: nat, input: seq<real>)
    requires offset + 2 * |input| <= output.Length
    modifies output
    ensures output[..] == Splice(old(output[..]), offset, PcmBytes(input))
  {
    var off := offset;
    for i := 0 to |input|
      invariant off == offset + 2 * i
      invariant output[..] == Splice(old(output[..]), offset, PcmBytes(input[..i]))
    {
      var s := Quantize(input[i]);
      SetInt16(output, off, s);
      SpliceAdjacent(old(output[..]), offset, PcmBytes(input[..i]), EncodeInt16(s));
      assert Quantized(input[..i + 1]) == Quantized(input[..i]) + [s];
      assert Quantized(input[..i + 1])[..i] == Quantized(input[..i]);
      off := off + 2;
    }
    assert input[..|input|] == input;
  }

  // ---------------------------------------------------------------------------
  // encodeWAV

  /** The header fields encodeWAV writes for `n` samples at `sampleRate`. */
  function HeaderFor(n: nat, sampleRate: nat): (h: Header)
    ensures h.riffSize == 36 + 2 * n && h.dataSize == 2 * n
    ensures h.fmtSize == 16 && h.formatTag == 1 && h.channels == 1
    ensures h.sampleRate == sampleRate && h.byteRate == 2 * sampleRate
    ensures h.blockAlign == 2 && h.bitsPerSample == 16
  {
    Header(36 + n * 2, 16, 1, 1, sampleRate, sampleRate * 2, 2, 16, n * 2)
  }

  /** The complete file encodeWAV produces. */
  function WavFile(samples: seq<real>, sampleRate: nat): (r: seq<Byte>)
    ensures |r| == 44 + 2 * |samples|
  {
    EncodeHeader(HeaderFor(|samples|, sampleRate)) + PcmBytes(samples)
  }

  lemma AsciiTags()
    ensures Ascii("RIFF") == RiffTag && Ascii("WAVE") == WaveTag
    ensures Ascii("fmt ") == FmtTag && Ascii("data") == DataTag
  {
  }

  /** The thirteen header writes of encodeWAV, at offsets 0 to 40. */
  method WriteHeader(view: array<Byte>, n: nat, sampleRate: nat)
    requires 44 <= view.Length
    modifies view
    ensures view[..] == Splice(old(view[..]), 0, EncodeHeader(HeaderFor(n, sampleRate)))
  {
    ghost var s0 := view[..];
    ghost var h := HeaderFor(n, sampleRate);
    WriteRiffChunk(view, 36 + n * 2);
    ghost var riff := RiffTag + Le32(h.riffSize) + WaveTag;
    WriteFormatChunk(view, sampleRate);
    ghost var fmt := FmtTag + Le32(h.fmtSize) + Le16(h.formatTag) + Le16(h.channels)
      + Le32(h.sampleRate) + Le32(h.byteRate) + Le16(h.blockAlign) + Le16(h.bitsPerSample);
    SpliceAdjacent(s0, 0, riff, fmt);
    WriteDataChunk(view, n * 2);
    SpliceAdjacent(s0, 0, riff + fmt, DataTag + Le32(h.dataSize));
    assert riff + fmt + (DataTag + Le32(h.dataSize)) == EncodeHeader(h);
  }

  /** The writes at offsets 0 to 11: RIFF identifier, file length, RIFF type. */
  method WriteRiffChunk(view: array<Byte>, riffSize: nat)
    requires 12 <= view.Length
    modifies view
    ensures view[..] == Splice(old(view[..]), 0, RiffTag + Le32(riffSize) + WaveTag)
  {
    ghost var s0 := view[..];
    AsciiTags();
    WriteString(view, 0, "RIFF");
    SetUint32(view, 4, riffSize);
    WriteString(view, 8, "WAVE");
    SpliceAdjacent(s0, 0, RiffTag, Le32(riffSize));
    SpliceAdjacent(s0, 0, RiffTag + Le32(riffSize), WaveTag);
  }

  /** The writes at offsets 36 to 43: data chunk identifier and length. */
  method WriteDataChunk(view: array<Byte>, dataSize: nat)
    requires 44 <= view.Length
    modifies view
    ensures view[..] == Splice(old(view[..]), 36, DataTag + Le32(dataSize))
  {
    ghost var s0 := view[..];
    AsciiTags();
    WriteString(view, 36, "data");
    SetUint32(view, 40, dataSize);
    SpliceAdjacent(s0, 36, DataTag, Le32(dataSize));
  }


  /** The writes at offsets 12 to 34: the "fmt " chunk of a mono 16-bit PCM file. */
  method WriteFormatChunk(view: array<Byte>, sampleRate: nat)
    requires 36 <= view.Length
    modifies view
    ensures view[..] == Splice(old(view[..]), 12,
      FmtTag + Le32(16) + Le16(1) + Le16(1)
      + Le32(sampleRate) + Le32(sampleRate * 2) + Le16(2) + Le16(16))
  {
    ghost var s0 := view[..];
    AsciiTags();
    WriteString(view, 12, "fmt ");
    SetUint32(view, 16, 16);
    SetUint16(view, 20, 1);
    SetUint16(view, 22, 1);
    ghost var p := FmtTag + Le32(16);
    SpliceAdjacent(s0, 12, FmtTag, Le32(16));
    SpliceAdjacent(s0, 12, p, Le16(1));
    p := p + Le16(1);
    SpliceAdjacent(s0, 12, p, Le16(1));
    p := p + Le16(1);
    assert view[..] == Splice(s0, 12, p);
    SetUint32(view, 24, sampleRate);
    SetUint32(view, 28, sampleRate * 2);
    SetUint16(view, 32, 2);
    SetUint16(view, 34, 16);
    SpliceAdjacent(s0, 12, p, Le32(sampleRate));
    p := p + Le32(sampleRate);
    SpliceAdjacent(s0, 12, p, Le32(sampleRate * 2));
    p := p + Le32(sampleRate * 2);
    SpliceAdjacent(s0, 12, p, Le16(2));
    p := p + Le16(2);
    SpliceAdjacent(s0, 12, p, Le16(16));
  }

  /** encodeWAV: a zero-filled buffer of 44 + 2N bytes, the header, then the samples. */
  method EncodeWav(samples: seq<real>, sampleRate: nat) returns (view: array<Byte>)
    ensures view.Length == 44 + 2 * |samples|
    ensures view[..] == WavFile(samples, sampleRate)
  {
    view := new Byte[44 + |samples| * 2];
    ghost var s0 := view[..];
    WriteHeader(view, |samples|, sampleRate);
    FloatTo16BitPCM(view, 44, samples);
    ghost var header := EncodeHeader(HeaderFor(|samples|, sampleRate));
    SpliceAdjacent(s0, 0, header, PcmBytes(samples));
    SpliceWhole(s0, header + PcmBytes(samples));
  }

  /**
   * Parsing what encodeWAV produced gives back the canonical mono 16-bit
   * header and, sample by sample, the quantized input.
   */
  lemma {:induction false} WavFileRoundTrip(samples: seq<real>, sampleRate: nat)
    requires 36 + 2 * |samples| < Two32 && 2 * sampleRate < Two32
    ensures DecodeInt16s(WavFile(samples, sampleRate)[44..]) == Quantized(samples)
    ensures DecodeHeader(WavFile(samples, sampleRate)) == Some(HeaderFor(|samples|, sampleRate))
  {
    WavHeaderDecodes(samples, sampleRate);
    WavSamplesDecode(samples, sampleRate);
  }

  lemma WavHeaderDecodes(samples: seq<real>, sampleRate: nat)
    requires 36 + 2 * |samples| < Two32 && 2 * sampleRate < Two32
    ensures DecodeHeader(WavFile(samples, sampleRate)) == Some(HeaderFor(|samples|, sampleRate))
  {
    var h := HeaderFor(|samples|, sampleRate);
    assert Fits(h);
    assert WavFile(samples, sampleRate) == EncodeHeader(h) + PcmBytes(samples);
    DecodeEncodeFits(h, PcmBytes(samples));
  }

  lemma WavSamplesDecode(samples: seq<real>, sampleRate: nat)
    ensures DecodeInt16s(WavFile(samples, sampleRate)[44..]) == Quantized(samples)
  {
    var h := HeaderFor(|samples|, sampleRate);
    assert WavFile(samples, sampleRate) == EncodeHeader(h) + PcmBytes(samples);
    PayloadOf(EncodeHeader(h), PcmBytes(samples));
    Int16sRoundTrip(Quantized(samples));
  }

  lemma PayloadOf(header: seq<Byte>, payload: seq<Byte>)
    requires |header| == 44
    ensures (header + payload)[44..] == payload
  {
  }

  /** Sample i sits at bytes 44 + 2i and 45 + 2i, low byte first, inside the int16 range. */
  lemma SampleAt(samples: seq<real>, sampleRate: nat, i: nat)
    requires i < |samples|
    ensures var w := WavFile(samples, sampleRate);
      && w[44 + 2 * i..46 + 2 * i] == EncodeInt16(Quantize(samples[i]))
      && DecodeInt16(w[44 + 2 * i], w[45 + 2 * i]) == Quantize(samples[i])
      && -0x8000 <= Quantize(samples[i]) <= 0x7FFF
  {
    var w := WavFile(samples, sampleRate);
    EncodeInt16sAt(Quantized(samples), i);
    assert w[44..] == PcmBytes(samples);
    assert w[44 + 2 * i..46 + 2 * i] == PcmBytes(samples)[2 * i..2 * i + 2];
    Int16RoundTrip(Quantize(samples[i]));
  }

  // ---------------------------------------------------------------------------
  // Safety level

  /** determineSafetyLevel: DANGER from 70, WARNING from 50, SAFE below. */
  function DetermineSafetyLevel(db: int): (r: SafetyLevel)
    ensures r == Danger <==> db >= DbThresholdDanger
    ensures r == Warning <==> DbThresholdWarning <= db < DbThresholdDanger
    ensures r == Safe <==> db < DbThresholdWarning
  {
    if db >= DbThresholdDanger then Danger
    else if db >= DbThresholdWarning then Warning
    else Safe
  }

  function SafetyRank(l: SafetyLevel): nat {
    match l
    case Safe => 0
    case Warning => 1
    case Danger => 2
  }

  /** A louder reading never gives a safer level. */
  lemma SafetyMonotone(a: int, b: int)
    requires a <= b
    ensures SafetyRank(DetermineSafetyLevel(a)) <= SafetyRank(DetermineSafetyLevel(b))
  {
  }

  // ---------------------------------------------------------------------------
  // Spectral classifier

  /** Sum of all magnitudes. */
  function Sum(s: seq<Byte>): nat
    decreases |s|
  {
    if s == [] then 0 else Sum(s[..|s| - 1]) + s[|s| - 1]
  }

  function Min(a: nat, b: nat): nat {
    if a <= b then a else b
  }

  /** Sum of the magnitudes of the bins with index below `limit`. */
  function SumBelow(s: seq<Byte>, limit: nat): nat {
    Sum(s[..Min(limit, |s|)])
  }

  lemma {:induction false} SumPrefixLe(s: seq<Byte>, k: nat)
    requires k <= |s|
    ensures Sum(s[..k]) <= Sum(s)
    decreases |s|
  {
    if k < |s| {
      var init := s[..|s| - 1];
      SumPrefixLe(init, k);
      assert init[..k] == s[..k];
    } else {
      assert s[..k] == s;
    }
  }

  /** The low-frequency energy is part of the total energy. */
  lemma LowLeTotal(s: seq<Byte>, limit: nat)
    ensures SumBelow(s, limit) <= Sum(s)
  {
    SumPrefixLe(s, Min(limit, |s|));
  }

  lemma {:induction false} SumZero(s: seq<Byte>)
    requires forall i :: 0 <= i < |s| ==> s[i] == 0
    ensures Sum(s) == 0
    decreases |s|
  {
    if s != [] {
      SumZero(s[..|s| - 1]);
    }
  }

  /**
   * floor(200 / ((sampleRate / 2) / bufferLength)), which on exact reals is
   * floor(400 * bufferLength / sampleRate).
   */
  function LowFreqIndexLimit(sampleRate: nat, bufferLength: nat): (r: nat)
    requires sampleRate > 0 && bufferLength > 0
  {
    (LowFreqBound * 2 * bufferLength) / sampleRate
  }

  /**
   * The cutoff as analyzeFrequency computes it: the bin width is the Nyquist
   * frequency divided by the bin count, and the cutoff is how many whole bins
   * fit below 200 Hz.
   */
  function LowFreqIndexLimitOf(sampleRate: nat, bufferLength: nat): (r: int)
    requires sampleRate > 0 && bufferLength > 0
    ensures r == LowFreqIndexLimit(sampleRate, bufferLength)
  {
    var nyquist := sampleRate as real / 2.0;
    var binSize := nyquist / bufferLength as real;
    LowFreqIndexLimitExact(sampleRate, bufferLength);
    ((LowFreqBound as real) / binSize).Floor
  }

  lemma LowFreqIndexLimitExact(sampleRate: nat, bufferLength: nat)
    requires sampleRate > 0 && bufferLength > 0
    ensures ((LowFreqBound as real) / ((sampleRate as real / 2.0) / bufferLength as real)).Floor
            == LowFreqIndexLimit(sampleRate, bufferLength)
  {
    BinsBelow(sampleRate as real, bufferLength as real);
    assert (400 * bufferLength) as real == 400.0 * bufferLength as real;
    FloorOfRatio(400 * bufferLength, sampleRate);
  }

  /** 200 Hz over a bin of (sr / 2) / bl Hz is 400 bl / sr bins. */
  lemma BinsBelow(sr: real, bl: real)
    requires sr > 0.0 && bl > 0.0
    ensures 200.0 / ((sr / 2.0) / bl) == (400.0 * bl) / sr
  {
    var binSize := (sr / 2.0) / bl;
    assert binSize * bl == sr / 2.0;
    var x := 200.0 / binSize;
    assert x * binSize == 200.0;
    calc {
      x * sr;
      x * (2.0 * (binSize * bl));
      2.0 * bl * (x * binSize);
      400.0 * bl;
    }
  }

  /** On exact reals, the floor of n / d is integer division. */
  lemma FloorOfRatio(n: nat, d: nat)
    requires d > 0
    ensures (n as real / d as real).Floor == n / d
  {
    var q, x, dr := n / d, n as real / d as real, d as real;
    assert x * dr == n as real;
    assert q * d <= n < (q + 1) * d;
    assert (q * d) as real == q as real * dr;
    assert ((q + 1) * d) as real == (q as real + 1.0) * dr;
    MulLeCancel(q as real, x, dr);
    MulLtCancel(x, q as real + 1.0, dr);
  }

  lemma MulLeCancel(a: real, b: real, c: real)
    requires c > 0.0 && a * c <= b * c
    ensures a <= b
  {
  }

  lemma MulLtCancel(a: real, b: real, c: real)
    requires c > 0.0 && a * c < b * c
    ensures a < b
  {
  }

  lemma MulLtMono(a: real, b: real, c: real)
    requires c > 0.0 && a < b
    ensures a * c < b * c
  {
  }

  lemma SumSnoc(s: seq<Byte>, i: nat)
    requires i < |s|
    ensures Sum(s[..i + 1]) == Sum(s[..i]) + s[i]
  {
    assert s[..i + 1][..i] == s[..i];
  }

  /** On exact reals, low / total > 0.4 is 5 * low > 2 * total. */
  lemma RatioTest(low: nat, total: nat)
    requires total > 0
    ensures (low as real / total as real > 0.4) <==> 5 * low > 2 * total
  {
    var l, t := low as real, total as real;
    var ratio := l / t;
    assert ratio * t == l;
    assert (5 * low) as real == 5.0 * l && (2 * total) as real == 2.0 * t;
    if ratio > 0.4 {
      MulLtMono(0.4, ratio, t);
      assert 2.0 * t < 5.0 * l;
    }
    if 5 * low > 2 * total {
      assert (5 * low) as real > (2 * total) as real;
      assert 0.4 * t < l == ratio * t;
      MulLtCancel(0.4, ratio, t);
    }
  }

  /**
   * The accumulation loop of analyzeFrequency: every bin adds to the total,
   * the bins with index below the cutoff also add to the low-frequency energy.
   */
  method AccumulateEnergy(frequencyData: seq<Byte>, lowFreqIndexLimit: int)
    returns (lowFreqEnergy: nat, totalEnergy: nat)
    requires lowFreqIndexLimit >= 0
    ensures totalEnergy == Sum(frequencyData)
    ensures lowFreqEnergy == SumBelow(frequencyData, lowFreqIndexLimit)
  {
    lowFreqEnergy, totalEnergy := 0, 0;
    for i := 0 to |frequencyData|
      invariant totalEnergy == Sum(frequencyData[..i])
      invariant lowFreqEnergy == Sum(frequencyData[..Min(lowFreqIndexLimit, i)])
    {
      var v := frequencyData[i];
      SumSnoc(frequencyData, i);
      totalEnergy := totalEnergy + v;
      if i < lowFreqIndexLimit {
        lowFreqEnergy := lowFreqEnergy + v;
      }
    }
    assert frequencyData[..|frequencyData|] == frequencyData;
  }

  /**
   * How many leading bins of an n-bin spectrum count as low frequency. With
   * no bins the bin width is +Infinity (NaN when the rate is 0 too) and no
   * bin is below the cutoff; with a zero rate the width is 0, the cutoff
   * +Infinity, and every bin is below it.
   */
  function LowBins(sampleRate: nat, bufferLength: nat, n: nat): (r: nat)
    ensures bufferLength == 0 ==> r == 0
    ensures bufferLength > 0 && sampleRate == 0 ==> r == n
    ensures sampleRate > 0 && bufferLength > 0 ==>
      r == ((LowFreqBound as real) / ((sampleRate as real / 2.0) / bufferLength as real)).Floor
  {
    if bufferLength == 0 then 0
    else if sampleRate == 0 then n
    else
      LowFreqIndexLimitExact(sampleRate, bufferLength);
      LowFreqIndexLimit(sampleRate, bufferLength)
  }

  /** In the app, 1024 bins at 44.1 kHz are 21.5 Hz wide: the first 9 are below 200 Hz. */
  lemma AppLowBins(n: nat)
    ensures LowBins(SampleRate, FftSize / 2, n) == 9
  {
  }

  /** More than 40% of a non-silent spectrum's energy lies below 200 Hz. */
  predicate LowFrequencyDominant(frequencyData: seq<Byte>, sampleRate: nat, bufferLength: nat) {
    var total := Sum(frequencyData);
    var low := SumBelow(frequencyData, LowBins(sampleRate, bufferLength, |frequencyData|));
    total > 0 && 5 * low > 2 * total
  }

  /**
   * analyzeFrequency: ENVIRONMENT on a silent spectrum, STRUCTURE when more
   * than 40% of the energy lies in the bins below 200 Hz, ENVIRONMENT
   * otherwise. VOICE is never produced.
   */
  method AnalyzeFrequency(frequencyData: seq<Byte>, sampleRate: nat, bufferLength: nat)
    returns (r: SoundType)
    ensures r == Structure <==> LowFrequencyDominant(frequencyData, sampleRate, bufferLength)
    ensures r == Environment <==> !LowFrequencyDominant(frequencyData, sampleRate, bufferLength)
  {
    var lowFreqIndexLimit: int;
    if bufferLength == 0 {
      lowFreqIndexLimit := 0;                       // floor(200 / +Infinity), or NaN
    } else if sampleRate == 0 {
      lowFreqIndexLimit := |frequencyData|;         // floor(200 / 0) is +Infinity
    } else {
      lowFreqIndexLimit := LowFreqIndexLimitOf(sampleRate, bufferLength);
    }
    var lowFreqEnergy, totalEnergy := AccumulateEnergy(frequencyData, lowFreqIndexLimit);
    if totalEnergy == 0 {
      return Environment;
    }
    var lowFreqRatio := lowFreqEnergy as real / totalEnergy as real;
    RatioTest(lowFreqEnergy, totalEnergy);
    if lowFreqRatio > 0.4 {
      return Structure;
    }
    return Environment;
  }

  /** A spectrum with no energy at all is classified as ENVIRONMENT. */
  method SilentSpectrum(frequencyData: seq<Byte>, sampleRate: nat, bufferLength: nat)
    returns (r: SoundType)
    requires forall i :: 0 <= i < |frequencyData| ==> frequencyData[i] == 0
    ensures r == Environment
  {
    r := AnalyzeFrequency(frequencyData, sampleRate, bufferLength);
    SumZero(frequencyData);
  }
}
