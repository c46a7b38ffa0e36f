/**
 * MainActivity.java: the native Android recorder. It streams 16-bit PCM to a
 * temporary file, adds an anomaly marker for every buffer louder than 65 dB,
 * lists markers newest first, turns the PCM file into a WAV file when
 * recording stops, and lists and reloads saved sessions.
 *
 * The activity's lists are fields of a class updated in place; the file
 * system, the recording thread and the media player are outside the model:
 * the recorded bytes, the directory listing and the parsed metadata are
 * parameters.
 */
module Activity {

  import opened Types
  import opened Riff
  import opened Waveform
  import AudioUtils

  /** A buffer louder than this gets a marker. */
  const DbThreshold: int := 65
  /** Bytes copied per read when the PCM file is turned into a WAV file. */
  const CopyBlock: nat := 2048

  // ---------------------------------------------------------------------------
  // Java number conversions

  /** The (int) cast of a long: the value modulo 2^32, as a signed 32-bit number. */
  function ToInt32(x: int): (r: int)
    ensures -0x8000_0000 <= r < 0x8000_0000
    ensures (r - x) % Two32 == 0
    ensures -0x8000_0000 <= x < 0x8000_0000 ==> r == x
  {
    (x + 0x8000_0000) % Two32 - 0x8000_0000
  }

  /** Java's truncating ms / 1000 on a long. */
  function SecondsOf(ms: int): (r: int)
    ensures ms >= 0 ==> 0 <= r && r * 1000 <= ms < r * 1000 + 1000
    ensures ms < 0 ==> r <= 0 && r * 1000 - 1000 < ms <= r * 1000
  {
    if ms >= 0 then ms / 1000 else -((-ms) / 1000)
  }

  function DigitChar(d: nat): (c: char)
    requires d < 10
    ensures '0' <= c <= '9'
  {
    ('0' as int + d) as char
  }

  /** Decimal digits of n, most significant first, as String.valueOf writes them. */
  function Decimal(n: nat): (s: string)
    ensures |s| > 0
    ensures forall i :: 0 <= i < |s| ==> '0' <= s[i] <= '9'
    ensures |s| > 1 ==> s[0] != '0'
    decreases n
  {
    if n < 10 then [DigitChar(n)] else Decimal(n / 10) + [DigitChar(n % 10)]
  }

  /** The number a string of decimal digits denotes. */
  function DecimalValue(s: string): nat
    requires forall i :: 0 <= i < |s| ==> '0' <= s[i] <= '9'
    decreases |s|
  {
    if s == [] then 0
    else 10 * DecimalValue(s[..|s| - 1]) + (s[|s| - 1] as int - '0' as int)
  }

  /** Reading the digits back gives the number. */
  lemma {:induction false} DecimalRoundTrip(n: nat)
    ensures DecimalValue(Decimal(n)) == n
    decreases n
  {
    if n >= 10 {
      DecimalRoundTrip(n / 10);
      var s := Decimal(n);
      assert s[..|s| - 1] == Decimal(n / 10);
    }
  }

  /** String concatenation of an int or long: a minus sign, then the digits. */
  function JavaString(i: int): (s: string)
    ensures |s| > 0 && (s[0] == '-' <==> i < 0)
  {
    if i < 0 then "-" + Decimal(-i) else Decimal(i)
  }

  // ---------------------------------------------------------------------------
  // The recording loop's byte writes

  /** The bytes (s & 0xff) and ((s >> 8) & 0xff) the recording loop writes for a short. */
  function ShortBytes(s: Int16): (r: seq<Byte>)
    ensures |r| == 2 && r[0] as int + 0x100 * r[1] as int == s % Two16
  {
    [s % 0x100, (s / 0x100) % 0x100]
  }

  /** The two masks give exactly the little-endian two's-complement encoding. */
  lemma ShortBytesLe(s: Int16)
    ensures ShortBytes(s) == EncodeInt16(s)
    ensures DecodeInt16(ShortBytes(s)[0], ShortBytes(s)[1]) == s
  {
    var u := s % Two16;
    if s < 0 {
      assert u == s + Two16;
      assert u / 0x100 == s / 0x100 + 0x100;
    }
    Int16RoundTrip(s);
  }

  /** One read of the recording loop: `read` samples of `buffer`, none when read is not positive. */
  method WriteBuffer(buffer: seq<Int16>, read: int) returns (bytes: seq<Byte>)
    requires read <= |buffer|
    ensures read <= 0 ==> bytes == []
    ensures read > 0 ==> bytes == EncodeInt16s(buffer[..read])
  {
    bytes := [];
    var i := 0;
    while i < read
      invariant 0 <= i <= Max0(read)
      invariant bytes == EncodeInt16s(buffer[..i])
    {
      ShortBytesLe(buffer[i]);
      bytes := bytes + [buffer[i] % 0x100];
      bytes := bytes + [(buffer[i] / 0x100) % 0x100];
      assert buffer[..i + 1][..i] == buffer[..i];
      i := i + 1;
    }
  }

  function Max0(x: int): nat {
    if x > 0 then x else 0
  }

  /** Every read's `counts[k]` fits in its buffer, as AudioRecord.read guarantees. */
  predicate ReadsFit(buffers: seq<seq<Int16>>, counts: seq<int>) {
    |counts| == |buffers| && forall k :: 0 <= k < |buffers| ==> counts[k] <= |buffers[k]|
  }

  /** The samples of a sequence of reads, in order: the first `counts[k]` of each buffer. */
  function Recorded(buffers: seq<seq<Int16>>, counts: seq<int>): seq<Int16>
    requires ReadsFit(buffers, counts)
    decreases |buffers|
  {
    if buffers == [] then []
    else
      var n := |buffers| - 1;
      Recorded(buffers[..n], counts[..n]) + buffers[n][..Max0(counts[n])]
  }

  /**
   * The while (isRecording) loop: the bytes written to the PCM file over a
   * sequence of reads are the little-endian encoding of all samples read.
   */
  method RecordingLoop(buffers: seq<seq<Int16>>, counts: seq<int>) returns (pcm: seq<Byte>)
    requires ReadsFit(buffers, counts)
    ensures pcm == EncodeInt16s(Recorded(buffers, counts))
  {
    pcm := [];
    for k := 0 to |buffers|
      invariant pcm == EncodeInt16s(Recorded(buffers[..k], counts[..k]))
    {
      var bytes := WriteBuffer(buffers[k], counts[k]);
      var got := buffers[k][..Max0(counts[k])];
      assert bytes == EncodeInt16s(got);
      assert buffers[..k + 1][..k] == buffers[..k] && counts[..k + 1][..k] == counts[..k];
      EncodeInt16sAppend(Recorded(buffers[..k], counts[..k]), got);
      pcm := pcm + bytes;
    }
    assert buffers[..|buffers|] == buffers && counts[..|counts|] == counts;
  }

  // ---------------------------------------------------------------------------
  // copyPcmToWav

  /** The header fields copyPcmToWav writes in front of `totalAudioLen` PCM bytes. */
  function JavaHeader(totalAudioLen: nat): (h: Header)
    ensures h.riffSize == totalAudioLen + 36 && h.dataSize == totalAudioLen
    ensures h.sampleRate == 44100 && h.byteRate == 88200 && h.channels == 1
    ensures h.fmtSize == 16 && h.formatTag == 1 && h.blockAlign == 2 && h.bitsPerSample == 16
  {
    var channels := 1;
    Header(totalAudioLen + 36, 16, 1, channels, SampleRate, 16 * SampleRate * channels / 8,
           2, 16, totalAudioLen)
  }

  /** The WAV file copyPcmToWav produces from the PCM file's bytes. */
  function JavaWavFile(pcm: seq<Byte>): (r: seq<Byte>)
    ensures |r| == 44 + |pcm| && r[44..] == pcm
  {
    var header := EncodeHeader(JavaHeader(|pcm|));
    assert (header + pcm)[44..] == pcm;
    header + pcm
  }

  /** Four header bytes from characters, each narrowed by the (byte) cast. */
  method PutChars(header: array<Byte>, off: nat, s: string)
    requires |s| == 4 && off + 4 <= header.Length
    modifies header
    ensures header[..] == AudioUtils.Splice(old(header[..]), off, AudioUtils.Ascii(s))
  {
    header[off] := AudioUtils.CharByte(s[0]);
    header[off + 1] := AudioUtils.CharByte(s[1]);
    header[off + 2] := AudioUtils.CharByte(s[2]);
    header[off + 3] := AudioUtils.CharByte(s[3]);
  }

  /** (x >> 8k) & 0xff for k = 0..3 of a non-negative long, at off..off+3. */
  method PutLong(header: array<Byte>, off: nat, x: nat)
    requires off + 4 <= header.Length
    modifies header
    ensures header[..] == AudioUtils.Splice(old(header[..]), off, Le32(x))
  {
    header[off] := x % 0x100;
    header[off + 1] := (x / 0x100) % 0x100;
    header[off + 2] := (x / 0x1_0000) % 0x100;
    header[off + 3] := (x / 0x100_0000) % 0x100;
  }

  /** Bytes 16 to 19: the fmt chunk length, 16. */
  method PutFormatLength(header: array<Byte>)
    requires 20 <= header.Length
    modifies header
    ensures header[..] == AudioUtils.Splice(old(header[..]), 16, Le32(16))
  {
    header[16] := 16; header[17] := 0; header[18] := 0; header[19] := 0;
  }

  /** Bytes 20 to 23: format 1 (PCM) and the channel count. */
  method PutFormatAndChannels(header: array<Byte>, channels: Byte)
    requires 24 <= header.Length
    modifies header
    ensures header[..] == AudioUtils.Splice(old(header[..]), 20, Le16(1) + Le16(channels))
  {
    header[20] := 1; header[21] := 0; header[22] := channels; header[23] := 0;
  }

  /** Bytes 32 to 35: block align 2 and 16 bits per sample. */
  method PutSampleLayout(header: array<Byte>)
    requires 36 <= header.Length
    modifies header
    ensures header[..] == AudioUtils.Splice(old(header[..]), 32, Le16(2) + Le16(16))
  {
    header[32] := 2; header[33] := 0; header[34] := 16; header[35] := 0;
  }

  /** The 44 header writes of copyPcmToWav. */
  method WriteJavaHeader(header: array<Byte>, totalAudioLen: nat)
    requires header.Length == 44
    modifies header
    ensures header[..] == EncodeHeader(JavaHeader(totalAudioLen))
  {
    ghost var s0 := header[..];
    ghost var h := JavaHeader(totalAudioLen);
    var sampleRate := SampleRate;
    var channels := 1;
    var byteRate := 16 * SampleRate * channels / 8;
    var totalDataLen := totalAudioLen + 36;
    PutRiffChunk(header, totalDataLen);
    ghost var riff := RiffTag + Le32(h.riffSize) + WaveTag + FmtTag;
    PutFormatFields(header, channels, sampleRate, byteRate);
    ghost var fmt := Le32(16) + (Le16(1) + Le16(channels)) + Le32(sampleRate) + Le32(byteRate)
      + (Le16(2) + Le16(16));
    AudioUtils.SpliceAdjacent(s0, 0, riff, fmt);
    PutChars(header, 36, "data");
    PutLong(header, 40, totalAudioLen);
    AudioUtils.AsciiTags();
    AudioUtils.SpliceAdjacent(s0, 0, riff + fmt, DataTag);
    AudioUtils.SpliceAdjacent(s0, 0, riff + fmt + DataTag, Le32(totalAudioLen));
    assert riff + fmt + DataTag + Le32(totalAudioLen) == EncodeHeader(h);
    AudioUtils.SpliceWhole(s0, EncodeHeader(h));
  }

  /** Bytes 0 to 15: "RIFF", the RIFF length, "WAVE", "fmt ". */
  method PutRiffChunk(header: array<Byte>, totalDataLen: nat)
    requires 16 <= header.Length
    modifies header
    ensures header[..] == AudioUtils.Splice(old(header[..]), 0,
      RiffTag + Le32(totalDataLen) + WaveTag + FmtTag)
  {
    ghost var s0 := header[..];
    AudioUtils.AsciiTags();
    PutChars(header, 0, "RIFF");
    PutLong(header, 4, totalDataLen);
    PutChars(header, 8, "WAVE");
    PutChars(header, 12, "fmt ");
    ghost var p := RiffTag + Le32(totalDataLen);
    AudioUtils.SpliceAdjacent(s0, 0, RiffTag, Le32(totalDataLen));
    AudioUtils.SpliceAdjacent(s0, 0, p, WaveTag);
    AudioUtils.SpliceAdjacent(s0, 0, p + WaveTag, FmtTag);
  }

  /** Bytes 16 to 35: the format chunk's length, format, channels, rates and sample layout. */
  method PutFormatFields(header: array<Byte>, channels: Byte, sampleRate: nat, byteRate: nat)
    requires 36 <= header.Length
    modifies header
    ensures header[..] == AudioUtils.Splice(old(header[..]), 16,
      Le32(16) + (Le16(1) + Le16(channels)) + Le32(sampleRate) + Le32(byteRate)
      + (Le16(2) + Le16(16)))
  {
    ghost var s0 := header[..];
    PutFormatLength(header);
    PutFormatAndChannels(header, channels);
    ghost var p := Le32(16);
    AudioUtils.SpliceAdjacent(s0, 16, p, Le16(1) + Le16(channels));
    p := p + (Le16(1) + Le16(channels));
    PutLong(header, 24, sampleRate);
    PutLong(header, 28, byteRate);
    AudioUtils.SpliceAdjacent(s0, 16, p, Le32(sampleRate));
    p := p + Le32(sampleRate);
    AudioUtils.SpliceAdjacent(s0, 16, p, Le32(byteRate));
    p := p + Le32(byteRate);
    PutSampleLayout(header);
    AudioUtils.SpliceAdjacent(s0, 16, p, Le16(2) + Le16(16));
  }


  /**
   * copyPcmToWav: the header for the PCM file's size, then the file copied
   * in blocks of 2048 bytes.
   */
  method CopyPcmToWav(pcm: seq<Byte>) returns (wav: seq<Byte>)
    ensures wav == JavaWavFile(pcm)
  {
    var totalAudioLen := |pcm|;
    var header := new Byte[44];
    WriteJavaHeader(header, totalAudioLen);
    wav := header[..];
    var pos := 0;
    while pos < |pcm|
      invariant 0 <= pos <= |pcm|
      invariant wav == header[..] + pcm[..pos]
      decreases |pcm| - pos
    {
      var length := if |pcm| - pos < CopyBlock then |pcm| - pos else CopyBlock;
      wav := wav + pcm[pos..pos + length];
      assert pcm[..pos + length] == pcm[..pos] + pcm[pos..pos + length];
      pos := pos + length;
    }
    assert pcm[..pos] == pcm;
  }

  /** For the same number of samples the Android header and the web header agree. */
  lemma JavaHeaderMatchesWeb(n: nat)
    ensures JavaHeader(2 * n) == AudioUtils.HeaderFor(n, SampleRate)
  {
  }

  /**
   * Fed the bytes the recording loop wrote, copyPcmToWav yields a file whose
   * header decodes to the canonical mono 16-bit 44.1 kHz header and whose
   * payload decodes to the recorded samples; for the same samples it is the
   * very file the web encoder writes.
   */
  lemma {:induction false} RecordingRoundTrip(samples: seq<Int16>)
    requires 36 + 2 * |samples| < Two32
    ensures DecodeInt16s(JavaWavFile(EncodeInt16s(samples))[44..]) == samples
    ensures DecodeHeader(JavaWavFile(EncodeInt16s(samples))) == Some(JavaHeader(2 * |samples|))
  {
    var pcm := EncodeInt16s(samples);
    DecodeEncodeFits(JavaHeader(|pcm|), pcm);
    Int16sRoundTrip(samples);
  }

  lemma SameFileAsWeb(xs: seq<real>)
    ensures JavaWavFile(EncodeInt16s(AudioUtils.Quantized(xs))) == AudioUtils.WavFile(xs, SampleRate)
  {
    JavaHeaderMatchesWeb(|xs|);
  }

  // ---------------------------------------------------------------------------
  // Marker labels, file names, history

  /** A node list row: the level of a marker and its time in whole seconds. */
  datatype Row = Row(db: int, seconds: int)

  /** The text the list shows for a row. */
  function RowText(r: Row): string {
    "Anomaly: " + JavaString(r.db) + "dB at " + JavaString(r.seconds) + "s"
  }

  /** The row added for a marker of level `db` at `timestampMs`. */
  function MarkerLabel(m: Marker): (r: Row)
    ensures r.db == m.db
    ensures m.timestamp >= 0 ==> r.seconds >= 0 && r.seconds * 1000 <= m.timestamp < r.seconds * 1000 + 1000
  {
    Row(m.db, SecondsOf(m.timestamp))
  }

  /**
   * The node list shows the markers' labels newest first: row 0 describes
   * the last marker, row 1 the one before it, and so on.
   */
  predicate Mirrors(items: seq<Row>, markers: seq<Marker>)
    decreases |markers|
  {
    && |items| == |markers|
    && (markers != [] ==>
          && items[0] == MarkerLabel(markers[|markers| - 1])
          && Mirrors(items[1..], markers[..|markers| - 1]))
  }

  /** Row p describes the marker at index size - 1 - p. */
  lemma {:induction false} MirrorsAt(items: seq<Row>, markers: seq<Marker>, p: nat)
    requires Mirrors(items, markers) && p < |markers|
    ensures items[p] == MarkerLabel(markers[|markers| - 1 - p])
    decreases |markers|
  {
    if p > 0 {
      var init := markers[..|markers| - 1];
      MirrorsAt(items[1..], init, p - 1);
      assert init[|init| - 1 - (p - 1)] == markers[|markers| - 1 - p];
    }
  }

  /** Prepending the label of a new last marker keeps the list in step. */
  lemma MirrorsPush(items: seq<Row>, markers: seq<Marker>, m: Marker)
    requires Mirrors(items, markers)
    ensures Mirrors([MarkerLabel(m)] + items, markers + [m])
  {
    assert ([MarkerLabel(m)] + items)[1..] == items;
    assert (markers + [m])[..|markers|] == markers;
  }

  /** The markers determine the node list: reloading them rebuilds the same rows. */
  lemma MirrorsUnique(a: seq<Row>, b: seq<Row>, markers: seq<Marker>)
    requires Mirrors(a, markers) && Mirrors(b, markers)
    ensures a == b
  {
    forall p | 0 <= p < |markers|
      ensures a[p] == b[p]
    {
      MirrorsAt(a, markers, p);
      MirrorsAt(b, markers, p);
    }
  }

  /** lastIndexOf(c): the last position holding c, or -1. */
  function LastIndexOf(s: string, c: char): (r: int)
    ensures -1 <= r < |s|
    ensures r == -1 <==> c !in s
    ensures r >= 0 ==> s[r] == c && forall k :: r < k < |s| ==> s[k] != c
    decreases |s|
  {
    if s == [] then -1
    else if s[|s| - 1] == c then |s| - 1
    else
      var r := LastIndexOf(s[..|s| - 1], c);
      assert c in s[..|s| - 1] <==> c in s;
      r
  }

  /** The text before the last '.'; None where Java's substring(0, -1) would throw. */
  function BaseName(wavName: string): (r: Option<string>)
    ensures r.None? <==> '.' !in wavName
    ensures r.Some? ==> |r.value| < |wavName| && wavName[..|r.value|] == r.value
                        && wavName[|r.value|] == '.' && '.' !in wavName[|r.value| + 1..]
  {
    var i := LastIndexOf(wavName, '.');
    if i < 0 then None else Some(wavName[..i])
  }

  /** The name of the metadata file that belongs to a recording. */
  function MetadataName(wavName: string): (r: Option<string>)
    ensures r.Some? <==> '.' in wavName
  {
    match BaseName(wavName)
    case None => None
    case Some(b) => Some(b + ".json")
  }

  /** The names stopRecording gives the two files of a session stamped `ts`. */
  function RecordingName(ts: int, extension: string): (r: string)
    ensures |r| > 4 + |extension| && r[..4] == "REC_" && EndsWith(r, extension)
  {
    "REC_" + JavaString(ts) + extension
  }

  /** Stripping the last extension of b + ".wav" gives back b. */
  lemma BaseNameOfWav(b: string)
    ensures BaseName(b + ".wav") == Some(b)
  {
    var s := b + ".wav";
    assert s[|b|] == '.';
    assert forall k :: |b| < k < |s| ==> s[k] != '.';
    assert s[..|b|] == b;
  }

  /** loadFullSession looks for the metadata file stopRecording wrote with the recording. */
  lemma MetadataOfRecording(ts: int)
    ensures MetadataName(RecordingName(ts, ".wav")) == Some(RecordingName(ts, ".json"))
  {
    var b := "REC_" + JavaString(ts);
    assert RecordingName(ts, ".wav") == b + ".wav";
    BaseNameOfWav(b);
  }

  predicate EndsWith(s: string, suffix: string) {
    |suffix| <= |s| && s[|s| - |suffix|..] == suffix
  }

  /** The names the listing filter keeps, in listing order. */
  function WavNames(listing: seq<string>): (r: seq<string>)
    ensures |r| <= |listing|
    ensures forall k :: 0 <= k < |r| ==> EndsWith(r[k], ".wav")
    decreases |listing|
  {
    if listing == [] then []
    else
      var last := listing[|listing| - 1];
      WavNames(listing[..|listing| - 1]) + (if EndsWith(last, ".wav") then [last] else [])
  }

  function Reverse(s: seq<string>): (r: seq<string>)
    ensures |r| == |s|
    ensures forall k :: 0 <= k < |s| ==> r[k] == s[|s| - 1 - k]
    decreases |s|
  {
    if s == [] then [] else [s[|s| - 1]] + Reverse(s[..|s| - 1])
  }

  /** Exactly the listed names that end in ".wav" are kept. */
  lemma {:induction false} WavNamesMembers(listing: seq<string>)
    ensures forall x :: x in WavNames(listing) <==> x in listing && EndsWith(x, ".wav")
    decreases |listing|
  {
    if listing != [] {
      var init := listing[..|listing| - 1];
      WavNamesMembers(init);
      assert listing == init + [listing[|listing| - 1]];
    }
  }

  /** What saveMetadata writes and loadFullSession reads back. */
  /**
   * How the activity's lists and the view's lists hang together: one row per
   * marker, newest first; the view's amplitudes are the newest ones of the
   * full list (all of them until the window fills); and the view holds a
   * marker with the same level and time for each of the activity's markers.
   */
  ghost predicate Consistent(rows: seq<Row>, markers: seq<Marker>, amplitudes: seq<real>,
                             shown: seq<real>, shownMarkers: seq<Marker>) {
    && Mirrors(rows, markers)
    && |shown| <= |amplitudes|
    && shown == amplitudes[|amplitudes| - |shown|..]
    && (|amplitudes| <= WindowSize ==> shown == amplitudes)
    && |shownMarkers| == |markers|
    && (forall k :: 0 <= k < |markers| ==>
          shownMarkers[k].db == markers[k].db && shownMarkers[k].timestamp == markers[k].timestamp)
  }

  datatype SessionData = SessionData(amplitudes: seq<real>, markers: seq<Marker>)

  // ---------------------------------------------------------------------------
  // The activity

  class MainActivity {
    var isRecording: bool
    /** The value shown in the decibel text view. */
    var dbText: int
    var nodeItems: seq<Row>
    var currentMarkers: seq<Marker>
    var currentAmplitudes: seq<real>
    var historyFiles: seq<string>
    const view: WaveformView

    /**
     * The node list mirrors the markers newest first; the view shows the
     * newest amplitudes (all of them until the window fills) and the same
     * markers, whose indices may differ once the window has slid.
     */
    ghost predicate Valid()
      reads this`nodeItems, this`currentMarkers, this`currentAmplitudes
      reads view`amplitudes, view`markers
    {
      Consistent(nodeItems, currentMarkers, currentAmplitudes, view.amplitudes, view.markers)
    }

    /** onCreate: empty lists, then the history list from the directory listing. */
    constructor (listing: Option<seq<string>>)
      ensures Valid() && fresh(view) && !isRecording
      ensures nodeItems == [] && currentMarkers == [] && currentAmplitudes == []
      ensures listing.None? ==> historyFiles == []
      ensures listing.Some? ==> historyFiles == Reverse(WavNames(listing.value))
    {
      isRecording := false;
      dbText := 0;
      nodeItems, currentMarkers, currentAmplitudes, historyFiles := [], [], [], [];
      view := new WaveformView();
      new;
      RefreshHistoryList(listing);
    }

    /**
     * refreshHistoryList: `listing` is the directory's names (None when the
     * directory cannot be listed); the .wav names are prepended one by one.
     */
    method RefreshHistoryList(listing: Option<seq<string>>)
      modifies this`historyFiles
      ensures listing.None? ==> historyFiles == []
      ensures listing.Some? ==> historyFiles == Reverse(WavNames(listing.value))
    {
      historyFiles := [];
      if listing.Some? {
        var files := WavNames(listing.value);
        for i := 0 to |files|
          invariant historyFiles == Reverse(files[..i])
        {
          assert files[..i + 1][..i] == files[..i];
          historyFiles := [files[i]] + historyFiles;
        }
        assert files[..|files|] == files;
      }
    }

    /** startRecording: without the permission nothing changes; otherwise all lists are cleared. */
    method StartRecording(granted: bool)
      requires Valid()
      modifies this, view
      ensures Valid()
      ensures !granted ==> (isRecording == old(isRecording) && nodeItems == old(nodeItems)
        && currentMarkers == old(currentMarkers) && currentAmplitudes == old(currentAmplitudes)
        && view.amplitudes == old(view.amplitudes) && view.markers == old(view.markers)
        && view.progress == old(view.progress))
      ensures granted ==> (isRecording && nodeItems == [] && currentMarkers == []
        && currentAmplitudes == [] && view.amplitudes == [] && view.markers == []
        && view.progress == 0.0)
      ensures historyFiles == old(historyFiles) && dbText == old(dbText)
    {
      if !granted {
        return;
      }
      ClearSession();
      isRecording := true;
    }

    /** The four clears startRecording and loadFullSession begin with. */
    method ClearSession()
      modifies this`nodeItems, this`currentMarkers, this`currentAmplitudes, view
      ensures Valid()
      ensures nodeItems == [] && currentMarkers == [] && currentAmplitudes == []
      ensures view.amplitudes == [] && view.markers == [] && view.progress == 0.0
    {
      view.Clear();
      nodeItems := [];
      currentMarkers := [];
      currentAmplitudes := [];
    }

    /**
     * The UI update posted for one recorded buffer with level `db`, time
     * `currentRelTime` ms since the start and RMS `amplitude`.
     */
    method OnBuffer(db: int, currentRelTime: int, amplitude: real)
      requires Valid()
      modifies this`dbText, this`currentAmplitudes, this`currentMarkers, this`nodeItems
      modifies view`amplitudes, view`markers
      ensures Valid()
      ensures dbText == if db >= 30 then db else 30
      ensures currentAmplitudes == old(currentAmplitudes) + [amplitude / 32768.0]
      ensures view.amplitudes == Slide(old(view.amplitudes), amplitude / 32768.0)
      ensures db > DbThreshold ==>
        && currentMarkers == old(currentMarkers) + [Marker(|currentAmplitudes| - 1, db, currentRelTime)]
        && view.markers == old(view.markers) + [Marker(|view.amplitudes| - 1, db, currentRelTime)]
        && nodeItems == [Row(db, SecondsOf(currentRelTime))] + old(nodeItems)
      ensures db <= DbThreshold ==>
        currentMarkers == old(currentMarkers) && view.markers == old(view.markers)
        && nodeItems == old(nodeItems)
      ensures |old(currentAmplitudes)| < WindowSize ==> view.amplitudes == currentAmplitudes
    {
      ShowLevel(db);
      var ampNorm := amplitude / 32768.0;
      PushAmplitude(ampNorm);
      if db > DbThreshold {
        PushMarker(db, currentRelTime);
      }
    }

    /** The decibel text view, which never shows less than 30. */
    method ShowLevel(db: int)
      modifies this`dbText
      ensures dbText == if db >= 30 then db else 30
    {
      dbText := if db >= 30 then db else 30;
    }

    /** The amplitude part of a buffer update: the full list and the view's window both grow. */
    method PushAmplitude(ampNorm: real)
      requires Valid()
      modifies this`currentAmplitudes, view`amplitudes
      ensures Valid()
      ensures currentAmplitudes == old(currentAmplitudes) + [ampNorm]
      ensures view.amplitudes == Slide(old(view.amplitudes), ampNorm)
      ensures |old(currentAmplitudes)| < WindowSize ==> view.amplitudes == currentAmplitudes
    {
      currentAmplitudes := currentAmplitudes + [ampNorm];
      view.AddAmplitude(ampNorm);
      SlidSuffix(old(view.amplitudes), old(currentAmplitudes), ampNorm);
    }

    /**
     * The marker part of a loud buffer: a marker in the view, one in the
     * activity's list, each at the newest index of its own amplitude list,
     * and a row at the top of the node list.
     */
    method PushMarker(db: int, currentRelTime: int)
      requires Valid()
      modifies this`currentMarkers, this`nodeItems, view`markers
      ensures Valid()
      ensures currentMarkers == old(currentMarkers) + [Marker(|currentAmplitudes| - 1, db, currentRelTime)]
      ensures view.markers == old(view.markers) + [Marker(|view.amplitudes| - 1, db, currentRelTime)]
      ensures nodeItems == [Row(db, SecondsOf(currentRelTime))] + old(nodeItems)
    {
      view.AddMarker(db, currentRelTime);
      var m := Marker(|currentAmplitudes| - 1, db, currentRelTime);
      currentMarkers := currentMarkers + [m];
      assert currentMarkers[..|currentMarkers| - 1] == old(currentMarkers);
      MirrorsPush(nodeItems, old(currentMarkers), m);
      nodeItems := [MarkerLabel(m)] + nodeItems;
    }

    /** A tap on node list row `position`: the time to seek to, if a player exists and the row does. */
    function NodeClickTarget(position: int, hasPlayer: bool): (r: Option<int>)
      reads this
      ensures r.Some? <==> hasPlayer && 0 <= position < |currentMarkers|
      ensures r.Some? ==>
        r.value == ToInt32(currentMarkers[|currentMarkers| - 1 - position].timestamp)
    {
      if !hasPlayer then None
      else
        var markerIdx := |currentMarkers| - 1 - position;
        if 0 <= markerIdx < |currentMarkers| then Some(ToInt32(currentMarkers[markerIdx].timestamp))
        else None
    }

    /** Tapping a row seeks to the time of the marker that row describes. */
    lemma NodeClickMatchesRow(position: nat)
      requires Valid() && position < |nodeItems|
      ensures var m := currentMarkers[|currentMarkers| - 1 - position];
        nodeItems[position] == MarkerLabel(m)
        && NodeClickTarget(position, true) == Some(ToInt32(m.timestamp))
    {
      MirrorsAt(nodeItems, currentMarkers, position);
    }

    /**
     * stopRecording: the WAV file made from the PCM bytes, the metadata
     * saved, and the history list refreshed from `listing`.
     */
    method StopRecording(pcm: seq<Byte>, listing: Option<seq<string>>)
      returns (wav: seq<Byte>, saved: SessionData)
      requires Valid()
      modifies this`isRecording, this`historyFiles
      ensures Valid() && !isRecording
      ensures wav == JavaWavFile(pcm)
      ensures saved == SessionData(currentAmplitudes, currentMarkers)
      ensures listing.None? ==> historyFiles == []
      ensures listing.Some? ==> historyFiles == Reverse(WavNames(listing.value))
    {
      isRecording := false;
      wav := CopyPcmToWav(pcm);
      saved := SessionData(currentAmplitudes, currentMarkers);
      RefreshHistoryList(listing);
    }

    /**
     * loadFullSession: `meta` is the parsed metadata file, None when there is
     * none. Without a '.' in the name the call throws before any change.
     */
    method LoadFullSession(wavName: string, meta: Option<SessionData>)
      returns (metadataFile: Option<string>)
      requires Valid()
      modifies this`nodeItems, this`currentMarkers, this`currentAmplitudes, view
      ensures Valid()
      ensures metadataFile == MetadataName(wavName)
      ensures metadataFile.None? ==>
        nodeItems == old(nodeItems) && currentMarkers == old(currentMarkers)
        && currentAmplitudes == old(currentAmplitudes)
        && view.amplitudes == old(view.amplitudes) && view.markers == old(view.markers)
        && view.progress == old(view.progress)
      ensures metadataFile.Some? && meta.None? ==>
        nodeItems == [] && currentMarkers == [] && currentAmplitudes == []
        && view.amplitudes == [] && view.markers == [] && view.progress == 0.0
      ensures metadataFile.Some? && meta.Some? ==>
        currentAmplitudes == meta.value.amplitudes && currentMarkers == meta.value.markers
        && view.amplitudes == meta.value.amplitudes && view.markers == meta.value.markers
        && view.progress == 0.0
    {
      var baseName := BaseName(wavName);
      if baseName.None? {
        return None;
      }
      metadataFile := Some(baseName.value + ".json");

      ClearSession();
      if meta.Some? {
        LoadAmplitudes(meta.value.amplitudes);
        LoadMarkers(meta.value.markers);
        view.SetSessionData(currentAmplitudes, currentMarkers);
      }
    }

    /** The amplitude loop of loadFullSession: each saved amplitude appended in order. */
    method LoadAmplitudes(amps: seq<real>)
      requires currentAmplitudes == []
      modifies this`currentAmplitudes
      ensures currentAmplitudes == amps
    {
      for i := 0 to |amps|
        invariant currentAmplitudes == amps[..i]
      {
        currentAmplitudes := currentAmplitudes + [amps[i]];
      }
      assert amps[..|amps|] == amps;
    }

    /** The marker loop of loadFullSession: each marker appended, its row prepended. */
    method LoadMarkers(marks: seq<Marker>)
      requires currentMarkers == [] && nodeItems == []
      modifies this`currentMarkers, this`nodeItems
      ensures currentMarkers == marks && Mirrors(nodeItems, marks)
    {
      for i := 0 to |marks|
        invariant currentMarkers == marks[..i]
        invariant Mirrors(nodeItems, marks[..i])
      {
        var m := marks[i];
        currentMarkers := currentMarkers + [m];
        assert marks[..i + 1] == marks[..i] + [m];
        MirrorsPush(nodeItems, marks[..i], m);
        nodeItems := [MarkerLabel(m)] + nodeItems;
      }
      assert marks[..|marks|] == marks;
    }
  }

  /** Sliding the view keeps it a suffix of the full list, equal to it until the window fills. */
  lemma SlidSuffix(window: seq<real>, all: seq<real>, amp: real)
    requires |window| <= |all| && window == all[|all| - |window|..]
    requires |all| <= WindowSize ==> window == all
    ensures var w, a := Slide(window, amp), all + [amp];
      |w| <= |a| && w == a[|a| - |w|..] && (|a| <= WindowSize ==> w == a)
  {
    var w, a := Slide(window, amp), all + [amp];
    if |window| + 1 > WindowSize {
      assert w == window[1..] + [amp];
    } else {
      assert w == window + [amp];
    }
  }
}
