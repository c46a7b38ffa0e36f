# AcousticGuard core, modelled in Dafny

AcousticGuard is an acoustic anomaly monitor for building inspection. The
microphone is sampled continuously. Each loudness reading (in dB) updates
rolling statistics and a hearing-safety band. A loud reading, more than two
seconds after the previous event, is logged as an event and labelled by how
much of its spectrum's energy lies below 200 Hz. The raw samples are kept so
that the whole session, or a seven-second clip around one event, can be
saved as a 16-bit mono PCM WAVE file.

The core exists twice:

- a web front end, with `services/audioUtils.ts` for the WAVE encoder, the
  safety bands and the spectral classifier, and `App.tsx` for the session
  state and the tick loop;
- an Android activity, `MainActivity.java`, which writes the PCM stream
  itself, keeps a marker list and a node list in step, and saves and
  reloads sessions. Its `WaveformView.java` keeps a sliding window of the
  last 1000 amplitudes.

The project's modules follow those files:

| module | file | models |
|---|---|---|
| `Types` | `types.dfy` | `types.ts` and `constants.ts`: the enumerations, the event and statistics records, the thresholds |
| `Riff` | `riff.dfy` | the 44-byte WAVE header and little-endian 16-bit samples, shared by both front ends, with a decoder as the reference partner |
| `AudioUtils` | `audio_utils.dfy` | `services/audioUtils.ts`: DataView writes on a byte array, `encodeWAV`, `determineSafetyLevel`, `analyzeFrequency` |
| `App` | `app.dfy` | `App.tsx`: the `Session` class holds the component's state and refs as fields, with the tick, reset, start, stop, merge, save and clip operations |
| `Waveform` | `waveform_view.dfy` | `WaveformView.java`: the `WaveformView` class and the touch-to-seek fraction |
| `Activity` | `main_activity.dfy` | `MainActivity.java`: the `MainActivity` class, the PCM write loop, the Java WAVE header, marker rows, file names and the history list |

The main results are these:

- **Web WAVE round trip.** The web encoder's file decodes to its header and
  to the clamped, truncated samples (`AudioUtils.WavFileRoundTrip`).
- **Same file on both platforms.** The Android header is the web header at
  44100 Hz (`Activity.JavaHeaderMatchesWeb`). The Android file of a
  quantized recording is byte-for-byte the web file
  (`Activity.SameFileAsWeb`).
- **Statistics match their definitions.** After any sequence of readings,
  the statistics the tick keeps are the maximum, the minimum above 10 and
  the rounded mean of those readings (`App.StatsAfterMax`,
  `App.StatsAfterMin`, `App.StatsAfterAvg`).
- **Event log invariant.** Every tick preserves it: events are more than
  2000 ms apart, loud, never `Voice`, and their ids increase
  (`App.Session.Valid`).
- **Classifier.** For every spectrum, the `Structure` label is exactly the
  test "more than 40 % of the energy lies in the bins below 200 Hz", with
  the bin limit taken on exact reals (`AudioUtils.AnalyzeFrequency`,
  `AudioUtils.LowFreqIndexLimitExact`).
- **Android lists stay in step.** The node list always shows the markers
  newest first. Tapping a row seeks to that row's marker. The view's window
  is always the last amplitudes of the full list (`Activity.MainActivity.Valid`,
  `Activity.MainActivity.NodeClickMatchesRow`, `Waveform.SlideAllKeepsLast`).

Two related behaviours are kept exactly as the source has them:

- **Marker indices drift once the window is full.** The view stores a
  marker's index into its own window, and that window drops its oldest entry
  once it holds 1000. After that, every stored index points one amplitude
  later per added amplitude (`Waveform.SlideShifts`).
- **The two marker lists then disagree.** The activity's own marker list
  counts positions in the unbounded amplitude list, so once the window is
  full the two lists give different indices for the same anomaly
  (`Activity.MainActivity.OnBuffer`).

## Model

| member | source | states |
|---|---|---|
| Riff.Le16RoundTrip | services/audioUtils.ts:36-38 | reading back the two little-endian bytes of a 16-bit field gives the value mod 2^16 |
| Riff.Le32RoundTrip | services/audioUtils.ts:28 | reading back the four little-endian bytes of a 32-bit field gives the value mod 2^32 |
| Riff.EncodeHeader | services/audioUtils.ts:25-50 | the WAVE header is exactly 44 bytes |
| Riff.EncodeHeaderTags | services/audioUtils.ts:26-48 | the header holds "RIFF" at 0, "WAVE" at 8, "fmt " at 12 and "data" at 36 |
| Riff.EncodeHeaderFields | services/audioUtils.ts:28-50 | each numeric header field sits little-endian at its offset (4, 16, 20, 22, 24, 28, 32, 34, 40) |
| Riff.DecodeHeader | services/audioUtils.ts:25-50 | a decoded header always has fields that fit their 16- or 32-bit slots |
| Riff.DecodeHeaderAccepts | services/audioUtils.ts:25-50 | the decoder accepts a byte string exactly when it has 44 bytes and the four chunk tags in place |
| Riff.DecodeEncodeHeader | services/audioUtils.ts:25-50 | decoding an encoded header, followed by any payload, gives back every field reduced to its slot width |
| Riff.DecodeEncodeFits | services/audioUtils.ts:25-50 | a header whose fields fit is decoded back unchanged |
| Riff.Int16RoundTrip | services/audioUtils.ts:17 | a signed 16-bit sample written little-endian reads back as itself |
| Riff.EncodeInt16s | services/audioUtils.ts:12-19 | the sample bytes are two per sample |
| Riff.DecodeInt16s | services/audioUtils.ts:12-19 | decoding yields one sample per two bytes |
| Riff.DecodeInt16sAt | services/audioUtils.ts:13-17 | decoded sample i comes from bytes 2i and 2i+1 |
| Riff.EncodeInt16sAt | services/audioUtils.ts:13-17 | bytes 2i and 2i+1 of the encoding are sample i, little-endian |
| Riff.Int16sRoundTrip | services/audioUtils.ts:12-19 | decoding the encoded samples gives the samples back |
| AudioUtils.Splice | services/audioUtils.ts:5-9 | overwriting a run of bytes in place keeps the buffer's length |
| AudioUtils.SpliceAdjacent | services/audioUtils.ts:25-50 | two adjacent writes equal one write of their concatenation |
| AudioUtils.SpliceAt | services/audioUtils.ts:5-9 | after a write, a byte inside the run is the written byte and every other byte is unchanged |
| AudioUtils.SpliceWhole | services/audioUtils.ts:52 | a write that covers the whole buffer leaves exactly the written bytes |
| AudioUtils.WriteString | services/audioUtils.ts:5-9 | the loop writes the string's character codes at the offset and leaves every other byte unchanged |
| AudioUtils.SetUint32 | services/audioUtils.ts:28 | setUint32(.., true) writes the four little-endian bytes at the offset and nothing else |
| AudioUtils.SetUint16 | services/audioUtils.ts:36 | setUint16(.., true) writes the two little-endian bytes at the offset and nothing else |
| AudioUtils.SetInt16 | services/audioUtils.ts:17 | setInt16(.., true) writes the integer, wrapped to 16 bits, little-endian at the offset and nothing else |
| AudioUtils.Clamp | services/audioUtils.ts:15 | the clamped sample lies in [-1, 1] and is unchanged inside that range |
| AudioUtils.Trunc | services/audioUtils.ts:17 | the DataView integer conversion rounds toward zero |
| AudioUtils.ToInt16 | services/audioUtils.ts:17 | the ECMAScript ToInt16 conversion setInt16 applies: congruent to the truncated value mod 2^16, and equal to it when it fits in 16 bits |
| AudioUtils.Quantize | services/audioUtils.ts:15-17 | a sample becomes the truncation of its clamp scaled by 32768 below zero and 32767 otherwise; +1 maps to 32767, -1 to -32768, and the sign is kept |
| AudioUtils.Quantized | services/audioUtils.ts:12-19 | the quantized recording has one 16-bit value per sample, each the quantized sample |
| AudioUtils.PcmBytes | services/audioUtils.ts:12-19 | the PCM payload is two bytes per sample |
| AudioUtils.FloatTo16BitPCM | services/audioUtils.ts:12-19 | the loop writes the PCM bytes of every sample from the offset on and leaves every other byte unchanged |
| AudioUtils.HeaderFor | services/audioUtils.ts:28-50 | the web header: RIFF size 36 + 2n, data size 2n, PCM format 1, one channel, byte rate twice the sample rate, block align 2, 16 bits |
| AudioUtils.WavFile | services/audioUtils.ts:21-55 | the file is 44 + 2n bytes long |
| AudioUtils.AsciiTags | services/audioUtils.ts:26-48 | the character codes of the four tag strings are the chunk tags the decoder checks |
| AudioUtils.WriteRiffChunk | services/audioUtils.ts:25-30 | bytes 0-11 become "RIFF", the file length and "WAVE" |
| AudioUtils.WriteFormatChunk | services/audioUtils.ts:31-46 | bytes 12-35 become the format chunk: tag, length 16, PCM, one channel, rate, byte rate, block align, bit depth |
| AudioUtils.WriteDataChunk | services/audioUtils.ts:47-50 | bytes 36-43 become "data" and the data length |
| AudioUtils.WriteHeader | services/audioUtils.ts:25-50 | the header writes leave the encoded web header in bytes 0-43 |
| AudioUtils.EncodeWav | services/audioUtils.ts:21-55 | the buffer is 44 + 2n bytes and holds exactly the web header followed by the PCM bytes |
| AudioUtils.WavFileRoundTrip | services/audioUtils.ts:21-55 | the saved file decodes to the web header and its payload decodes to the quantized samples |
| AudioUtils.WavHeaderDecodes | services/audioUtils.ts:25-50 | the first 44 bytes of the file decode to the web header |
| AudioUtils.WavSamplesDecode | services/audioUtils.ts:52 | the bytes after the header decode to the quantized samples |
| AudioUtils.PayloadOf | services/audioUtils.ts:52 | the payload starts right after the 44-byte header |
| AudioUtils.SampleAt | services/audioUtils.ts:13-17 | sample i of the recording lands at byte 44 + 2i and decodes to its quantized value |
| AudioUtils.DetermineSafetyLevel | services/audioUtils.ts:82-86 | Danger iff db >= 70, Warning iff 50 <= db < 70, Safe iff db < 50 |
| AudioUtils.SafetyMonotone | services/audioUtils.ts:82-86 | a louder reading never gets a safer band |
| AudioUtils.SumPrefixLe | services/audioUtils.ts:97-103 | the energy of a prefix of the spectrum is at most the total energy |
| AudioUtils.LowLeTotal | services/audioUtils.ts:97-103 | the low-frequency energy never exceeds the total energy |
| AudioUtils.SumZero | services/audioUtils.ts:105 | an all-zero spectrum has total energy 0 |
| AudioUtils.LowFreqIndexLimitOf | services/audioUtils.ts:89-95 | the bin limit of line 95, taken on exact reals, is floor(400 * bufferLength / sampleRate) |
| AudioUtils.LowFreqIndexLimitExact | services/audioUtils.ts:89-95 | floor(200 / ((sampleRate / 2) / bufferLength)) equals the integer limit, for positive rate and length |
| AudioUtils.BinsBelow | services/audioUtils.ts:89-95 | 200 divided by the bin width equals 400 * bufferLength / sampleRate |
| AudioUtils.FloorOfRatio | services/audioUtils.ts:95 | the floor of an exact quotient of naturals is their integer division |
| AudioUtils.SumSnoc | services/audioUtils.ts:97-99 | adding bin i to the running total of bins 0..i-1 gives the total of bins 0..i |
| AudioUtils.RatioTest | services/audioUtils.ts:107-109 | lowFreqEnergy / totalEnergy > 0.4 iff 5 * low > 2 * total, for a positive total |
| AudioUtils.AccumulateEnergy | services/audioUtils.ts:97-103 | the loop's totals are the sum of all bins and the sum of the bins below the limit |
| AudioUtils.LowBins | services/audioUtils.ts:89-100 | the number of leading bins counted as low frequency: none when bufferLength is 0 (an infinite or NaN bin width), every bin when only sampleRate is 0 (a zero bin width), and otherwise floor(200 / ((sampleRate / 2) / bufferLength)) on exact reals |
| AudioUtils.AppLowBins | App.tsx:158 | at 44100 Hz with 1024 bins, the classifier counts exactly the first 9 bins as low frequency |
| AudioUtils.AnalyzeFrequency | services/audioUtils.ts:88-114 | Structure iff the spectrum's energy is nonzero and more than 40 % of it lies below the bin limit (0 bins when bufferLength is 0, every bin when only sampleRate is 0), otherwise Environment |
| AudioUtils.SilentSpectrum | services/audioUtils.ts:105 | a silent spectrum is always classified Environment |
| App.Round | App.tsx:148 | Math.round gives the integer within half a unit of x, halves rounded up |
| App.Smooth | App.tsx:148 | the smoothed reading lies between the previous reading and the new one |
| App.StepStats | App.tsx:147-152 | one setStats step: max is the larger of the old max and db, min moves only for readings above 10, current lies between the old current and db, avg is the rounded mean |
| App.StatsAfterMax | App.tsx:144-152 | after any readings since a reset, max is at least every reading and is one of them (or the initial 0) |
| App.StatsAfterMin | App.tsx:144-152 | after any readings, min is at most every reading above 10, at most 100, and is the initial 100 or one of those readings |
| App.StatsAfterAvg | App.tsx:144-151 | after a nonempty run of readings, avg is their mean rounded to the nearest integer |
| App.StatsAfterMonotone | App.tsx:149-150 | further readings never lower max and never raise min |
| App.TriggersEvent | App.tsx:157 | the debounce test (db > 50 and more than 2000 ms since the last event) only ever fires at the Warning or Danger level |
| App.TriggerKeepsSpacing | App.tsx:157-169 | an event stamped now that passes the debounce test keeps the log's events more than 2000 ms apart |
| App.IdsUnique | App.tsx:160-161 | along the event log ids strictly increase, so no two events share an id |
| App.IdsIncrease | App.tsx:160-161 | an earlier event in the log has a smaller id than a later one |
| App.EventKind | App.tsx:158 | an event is never labelled Voice, and is labelled Structure iff its spectrum is low-frequency dominant at 44100 Hz with 1024 bins |
| App.Flatten | App.tsx:184-193 | the merged buffer's length is the total length of the chunks |
| App.TotalLengthPrefix | App.tsx:185-190 | the chunks before chunk k, plus chunk k, fit within the total length |
| App.FlattenAt | App.tsx:188-191 | sample j of chunk k sits in the merged buffer at the offset of chunk k plus j |
| App.JsSlice | App.tsx:229 | Array.slice with an in-order start and end is the subsequence clipped to the buffer |
| App.Max0 | App.tsx:219 | Math.max(0, x) is nonnegative, at least x, and either 0 or x |
| App.ClipStart | App.tsx:219-222 | the clip's first sample is 3 s before the event, at 44100 samples per second, and never before sample 0 |
| App.ClipEnd | App.tsx:220-223 | for an event not more than 4 s before the start, the clip's end sample lies between its first sample and seven seconds after it |
| App.ClipSpan | App.tsx:219-223 | the sample 4 s after the event lies between the clip start and seven seconds past it |
| App.EventClip | App.tsx:216-229 | no clip iff its first sample lies past the end of the merged buffer; otherwise the merged samples from the first sample to the end sample (clipped to the buffer), at most seven seconds of them |
| App.EventClipWindow | App.tsx:215-229 | the clip starts 3 s before the event at the earliest and ends 4 s after it at the latest (at most 7 s), is absent iff it would start past the end of the buffer, and contains the event's own sample |
| App.FloorShift | App.tsx:222-223 | floor(x + n) = floor(x) + n for an integer n |
| App.FloorMono | App.tsx:222-223 | floor is monotone |
| App.Session.constructor | App.tsx:26-50 | the initial state: not recording, stats {30, 0, 100, 0}, level Safe, no events, no chunks, duration 0 |
| App.Session.Tick | App.tsx:140-170 | one tick records the reading, sets the safety band of db, and appends an event (id, time, seconds since start, db, spectral label) exactly when db > 50 and more than 2000 ms have passed since the last event; it keeps the statistics and event-log invariant |
| App.Session.SetSafetyLevel | App.tsx:154 | the safety level becomes the given band |
| App.Session.DetectEvent | App.tsx:156-170 | an event is appended and lastEventTime becomes now exactly when the debounce test passes; otherwise the log is unchanged |
| App.Session.UpdateStats | App.tsx:143-152 | the sum and count grow by the reading and the stats take one StepStats step, keeping them equal to StatsAfter of all readings |
| App.Session.RecordEvent | App.tsx:157-169 | the new event carries the next id, the current time, its time relative to the start in seconds, db and the spectral label, and the log stays spaced and ordered |
| App.Session.ResetStats | App.tsx:55-65 | stats back to the initial record, accumulators, events and chunks cleared, duration 0, the start time reset to now only while recording |
| App.Session.StartAudio | App.tsx:85-125 | with microphone access: recording, no permission error, chunks cleared, start time now; without it: permission error set and not recording; nothing else changes |
| App.Session.StopAudio | App.tsx:67-83 | recording stops and nothing else changes |
| App.Session.AppendChunk | App.tsx:112-116 | the chunk is appended and the duration grows by its length over 44100 |
| App.Session.GetMergedPCM | App.tsx:184-193 | the merged array holds the chunks' samples in order, its length their total |
| App.Session.SaveRecording | App.tsx:195-199 | no file without chunks; otherwise the web WAVE file of the merged samples at 44100 Hz |
| App.Session.PlayEventAudio | App.tsx:215-231 | no clip without chunks or when the clip would start past the end; otherwise the WAVE file of the event's clip window |
| Waveform.Slide | android/src/main/java/com/acousticguard/app/WaveformView.java:71-76 | the new amplitude is last; below the window size the rest is the old list, at the window size the oldest entry is gone; the window never exceeds 1000 |
| Waveform.Last | android/src/main/java/com/acousticguard/app/WaveformView.java:73-74 | the last n of a list has at most n entries |
| Waveform.SlideAllKeepsLast | android/src/main/java/com/acousticguard/app/WaveformView.java:71-76 | after any sequence of addAmplitude calls the view holds exactly the last 1000 amplitudes it was given |
| Waveform.SlideShifts | android/src/main/java/com/acousticguard/app/WaveformView.java:71-81 | once the window is full, every amplitude moves down one place, so a stored marker index points one amplitude later |
| Waveform.SeekFraction | android/src/main/java/com/acousticguard/app/WaveformView.java:123-130 | the seek fraction is x / width clamped to [0, 1]; a zero width gives 1 for x > 0, 0 for x < 0, and NaN (None) exactly for x = 0 |
| Waveform.DivideByWidth | android/src/main/java/com/acousticguard/app/WaveformView.java:125-126 | for a positive width, x / width is at least 0 iff x is, and at most 1 iff x is at most the width |
| Waveform.Clamp01 | android/src/main/java/com/acousticguard/app/WaveformView.java:126 | Math.max(0, Math.min(1, p)) lies in [0, 1] and is p inside that range |
| Waveform.WaveformView.constructor | android/src/main/java/com/acousticguard/app/WaveformView.java:17-19 | a new view has no amplitudes, no markers and progress 0 |
| Waveform.WaveformView.Clear | android/src/main/java/com/acousticguard/app/WaveformView.java:58-63 | both lists emptied and progress 0 |
| Waveform.WaveformView.SetSessionData | android/src/main/java/com/acousticguard/app/WaveformView.java:65-69 | the view holds copies of the given lists, without the window cap |
| Waveform.WaveformView.AddAmplitude | android/src/main/java/com/acousticguard/app/WaveformView.java:71-76 | the amplitude list becomes its Slide by the new value |
| Waveform.WaveformView.AddMarker | android/src/main/java/com/acousticguard/app/WaveformView.java:78-81 | one marker appended at the index of the newest amplitude in the window |
| Waveform.WaveformView.SetProgress | android/src/main/java/com/acousticguard/app/WaveformView.java:83-86 | progress becomes p |
| Activity.ToInt32 | android/src/main/java/com/acousticguard/app/MainActivity.java:105 | the (int) cast of a long is the value wrapped into the 32-bit range, congruent mod 2^32, and unchanged when it fits |
| Activity.SecondsOf | android/src/main/java/com/acousticguard/app/MainActivity.java:181 | Java's long division by 1000 truncates toward zero |
| Activity.Decimal | android/src/main/java/com/acousticguard/app/MainActivity.java:181 | a natural number prints as a nonempty string of digits without a leading zero |
| Activity.DecimalRoundTrip | android/src/main/java/com/acousticguard/app/MainActivity.java:181 | reading the printed digits back gives the number |
| Activity.JavaString | android/src/main/java/com/acousticguard/app/MainActivity.java:181 | an int prints nonempty, with a leading '-' iff it is negative |
| Activity.ShortBytes | android/src/main/java/com/acousticguard/app/MainActivity.java:164-165 | the two masked bytes, low byte first, make up the short's 16-bit two's complement value |
| Activity.ShortBytesLe | android/src/main/java/com/acousticguard/app/MainActivity.java:164-165 | the two bytes (s & 0xff) and ((s >> 8) & 0xff) are the little-endian encoding of s and decode back to s |
| Activity.WriteBuffer | android/src/main/java/com/acousticguard/app/MainActivity.java:159-166 | the write loop emits the little-endian encoding of the first `read` samples, nothing when read <= 0 |
| Riff.EncodeInt16sAppend | android/src/main/java/com/acousticguard/app/MainActivity.java:159-166 | encoding two runs of samples one after the other gives the encoding of the joined run |
| Activity.RecordingLoop | android/src/main/java/com/acousticguard/app/MainActivity.java:158-166 | over any sequence of reads, the bytes written to the PCM file are the little-endian encoding of all samples read, in order: the stream RecordingRoundTrip starts from |
| Activity.JavaHeader | android/src/main/java/com/acousticguard/app/MainActivity.java:318-341 | the Android header: RIFF size totalAudioLen + 36, data size totalAudioLen, 44100 Hz, byte rate 88200, one channel, PCM, block align 2, 16 bits |
| Activity.JavaWavFile | android/src/main/java/com/acousticguard/app/MainActivity.java:342-344 | the WAVE file is 44 + n bytes and its payload is the PCM bytes unchanged |
| Activity.PutChars | android/src/main/java/com/acousticguard/app/MainActivity.java:327 | four character bytes land at the offset and nothing else changes |
| Activity.PutLong | android/src/main/java/com/acousticguard/app/MainActivity.java:328-329 | the four (x >> 8k) & 0xff bytes are the little-endian 32-bit field at the offset |
| Activity.PutFormatLength | android/src/main/java/com/acousticguard/app/MainActivity.java:332 | bytes 16-19 become the little-endian 16 |
| Activity.PutFormatAndChannels | android/src/main/java/com/acousticguard/app/MainActivity.java:333 | bytes 20-23 become format 1 and the channel count, little-endian |
| Activity.PutSampleLayout | android/src/main/java/com/acousticguard/app/MainActivity.java:338 | bytes 32-35 become block align 2 and 16 bits, little-endian |
| Activity.PutRiffChunk | android/src/main/java/com/acousticguard/app/MainActivity.java:327-331 | bytes 0-15 become "RIFF", the RIFF size, "WAVE" and "fmt " |
| Activity.PutFormatFields | android/src/main/java/com/acousticguard/app/MainActivity.java:332-338 | bytes 16-35 become the format chunk's fields |
| Activity.WriteJavaHeader | android/src/main/java/com/acousticguard/app/MainActivity.java:326-341 | the 44 header assignments produce exactly the encoded Android header |
| Activity.CopyPcmToWav | android/src/main/java/com/acousticguard/app/MainActivity.java:316-346 | the copied file is the Android header followed by the PCM bytes |
| Activity.JavaHeaderMatchesWeb | android/src/main/java/com/acousticguard/app/MainActivity.java:318-341 | for 2n PCM bytes the Android header equals the web header of n samples at 44100 Hz |
| Activity.RecordingRoundTrip | android/src/main/java/com/acousticguard/app/MainActivity.java:159-166 | a recorded sample stream saved as WAVE decodes to the Android header and back to the same samples |
| Activity.SameFileAsWeb | android/src/main/java/com/acousticguard/app/MainActivity.java:316-346 | the Android file of the quantized samples is byte-for-byte the web encoder's file of those samples |
| Activity.MarkerLabel | android/src/main/java/com/acousticguard/app/MainActivity.java:181 | a marker's row shows its level and the whole seconds of its time |
| Activity.MirrorsAt | android/src/main/java/com/acousticguard/app/MainActivity.java:101-104 | row p of the node list describes marker |markers| - 1 - p |
| Activity.MirrorsPush | android/src/main/java/com/acousticguard/app/MainActivity.java:180-181 | appending a marker and prepending its row keeps the node list the reversed marker labels |
| Activity.MirrorsUnique | android/src/main/java/com/acousticguard/app/MainActivity.java:180-181 | the markers determine the node list |
| Activity.LastIndexOf | android/src/main/java/com/acousticguard/app/MainActivity.java:238 | -1 iff the character is absent, else the position of its last occurrence |
| Activity.BaseName | android/src/main/java/com/acousticguard/app/MainActivity.java:238 | the name up to its last '.', absent (the substring throws) iff there is no '.' |
| Activity.MetadataName | android/src/main/java/com/acousticguard/app/MainActivity.java:238-240 | a metadata name exists iff the recording name contains a '.' |
| Activity.BaseNameOfWav | android/src/main/java/com/acousticguard/app/MainActivity.java:238 | the base name of b + ".wav" is b |
| Activity.RecordingName | android/src/main/java/com/acousticguard/app/MainActivity.java:200-201 | a session file is named "REC_", then the timestamp, then the extension |
| Activity.MetadataOfRecording | android/src/main/java/com/acousticguard/app/MainActivity.java:199-201 | the recording REC_ts.wav finds the metadata saved beside it, REC_ts.json |
| Activity.Reverse | android/src/main/java/com/acousticguard/app/MainActivity.java:311 | prepending each file gives the listing in reverse order |
| Activity.WavNames | android/src/main/java/com/acousticguard/app/MainActivity.java:308 | the filter keeps at most the listed names, each ending in ".wav" |
| Activity.WavNamesMembers | android/src/main/java/com/acousticguard/app/MainActivity.java:308 | a name is kept iff it is in the listing and ends in ".wav" |
| Activity.MainActivity.constructor | android/src/main/java/com/acousticguard/app/MainActivity.java:54-59 | the activity starts with empty lists, a fresh view, not recording, and the history list refreshed |
| Activity.MainActivity.RefreshHistoryList | android/src/main/java/com/acousticguard/app/MainActivity.java:306-314 | the history list is the ".wav" names of the listing in reverse order, empty when the listing fails |
| Activity.MainActivity.StartRecording | android/src/main/java/com/acousticguard/app/MainActivity.java:131-150 | without permission nothing changes; with it the view and all three lists are cleared and recording starts |
| Activity.MainActivity.ClearSession | android/src/main/java/com/acousticguard/app/MainActivity.java:141-144 | the view, node list, markers and amplitudes are all cleared |
| Activity.MainActivity.OnBuffer | android/src/main/java/com/acousticguard/app/MainActivity.java:172-184 | the level shown is max(30, db); the normalised amplitude is appended to the full list and slid into the view; a marker and a row are added exactly when db > 65, each list's marker at its own newest index |
| Activity.MainActivity.ShowLevel | android/src/main/java/com/acousticguard/app/MainActivity.java:173 | the text shows max(30, db) |
| Activity.MainActivity.PushAmplitude | android/src/main/java/com/acousticguard/app/MainActivity.java:174-176 | the full list grows by the amplitude, the view slides it in, and the view stays the tail of the full list |
| Activity.MainActivity.PushMarker | android/src/main/java/com/acousticguard/app/MainActivity.java:178-182 | the view and the activity each append a marker at their own newest amplitude index, and the row goes on top of the node list |
| Activity.MainActivity.NodeClickTarget | android/src/main/java/com/acousticguard/app/MainActivity.java:99-109 | a tap seeks iff a player exists and the row has a marker, to that marker's timestamp cast to int |
| Activity.MainActivity.NodeClickMatchesRow | android/src/main/java/com/acousticguard/app/MainActivity.java:99-109 | the row tapped describes the marker whose time the tap seeks to |
| Activity.MainActivity.StopRecording | android/src/main/java/com/acousticguard/app/MainActivity.java:191-212 | recording stops, the WAVE file is the header plus the PCM, the saved metadata is the amplitudes and markers, and the history list is refreshed |
| Activity.MainActivity.LoadFullSession | android/src/main/java/com/acousticguard/app/MainActivity.java:237-278 | a name without '.' changes nothing; otherwise the session is cleared and, when the metadata exists, the amplitudes, markers and rows are loaded and handed to the view |
| Activity.MainActivity.LoadAmplitudes | android/src/main/java/com/acousticguard/app/MainActivity.java:259-262 | the loop appends every saved amplitude in order |
| Activity.MainActivity.LoadMarkers | android/src/main/java/com/acousticguard/app/MainActivity.java:264-270 | the loop appends every saved marker and leaves the node list as their rows, newest first |
| Activity.SlidSuffix | android/src/main/java/com/acousticguard/app/MainActivity.java:174-176 | after one more amplitude the view is still a suffix of the full list, and equal to it until the window fills |

## Left out

- calculateDecibels (services/audioUtils.ts:57-80) and the Android dB formula (MainActivity.java:161-169) use square roots and logarithms in floating point. The dB reading is a parameter: a natural number on the web side, where the source clamps it at 0, and an int on Android.
- Float32 and double rounding are not modelled. Samples, amplitudes and times are exact reals, so the (float) casts and the 32767/32768 scalings are exact.
- Math.round is modelled as floor(x + 0.5) on exact reals.
- AudioUtils.LowFreqIndexLimitOf: the bin limit floor(200 / ((sampleRate / 2) / bufferLength)) is taken on exact reals. In IEEE doubles it can come out one lower when 400 * bufferLength / sampleRate is a whole number (at sampleRate 425 and bufferLength 187 the double gives 175, the exact value is 176). The app's own call, 44100 Hz with 1024 bins, gives 9 either way.
- AudioUtils.AnalyzeFrequency: because of the exact bin limit, for sample rates and bin counts where the double limit is one lower, the model counts one more bin as low frequency than the source does.
- App.Session.Tick: event ids come from a counter instead of Math.random().toString(36). The counter makes ids unique, which random strings only make likely.
- The clock (Date.now, System.currentTimeMillis) is a parameter of the operations that read it.
- App.Session.StartAudio: getUserMedia is a boolean parameter, true when access is granted. The audio graph (AudioContext, analyser, script processor, gain) is not modelled; samples arrive through AppendChunk.
- App.Session.Tick: React's setState updaters are deferred in the source and are applied here at once, in issue order. The tick's updaters touch separate state, so both orders end in the same state.
- App.Session.Tick: the `if (!analyserRef.current) return` guard (App.tsx:132) and the requestAnimationFrame re-arming are not modelled. A tick is one call.
- The waveform preview state (waveData), playbackId, the audio player and the download anchor (App.tsx:200-212, 232-254) are user-interface side effects and are left out.
- Activity.MainActivity.StopRecording: the metadata is returned as a value. The JSON text written by saveMetadata (MainActivity.java:214-235) is not modelled.
- Activity.MainActivity.LoadFullSession: the parsed metadata is a parameter, None when the file is missing. A parse error partway through a file, which the source catches after a partial load, is not modelled.
- Activity.MainActivity.StopRecording: the temporary PCM file and the FileInputStream copy loop are modelled as the whole byte sequence, copied at once. The `pcm` parameter is the stream Activity.RecordingLoop produces.
- Activity.MainActivity.RefreshHistoryList: the directory listing is a parameter, None when listFiles fails.
- Activity.MainActivity.StartRecording: the permission check is a boolean parameter. The AudioRecord setup and the recording thread are not modelled; each posted buffer update is one OnBuffer call.
- The threads (the recording thread and mainHandler posts) and the interleaving between them are not modelled.
- preparePlayback, MediaPlayer, seekTo, the seek bar and the 100 ms progress polling (MainActivity.java:280-304) are not modelled. Activity.MainActivity.NodeClickTarget returns the seek position instead of seeking.
- Drawing (WaveformView.onDraw), paints, the drawer layout and list adapters are not modelled.
- Activity.RowText: the node list holds structured rows. The row text "Anomaly: <db>dB at <s>s" is produced by RowText from the same fields.
- File names carry the timestamp as a parameter (RecordingName). The web download name's ISO date is left out.
- Riff.DecodeHeader is a reference decoder written for the round-trip proofs. The source has no decoder.
- The WebView host and the React components other than App.tsx are not part of this model.
