/**
 * App.tsx: the session controller of the web client. Its React state and
 * mutable refs (stats, events, dbSumRef, dbCountRef, lastEventTimeRef,
 * pcmDataRef, recordingStartTimeRef, recordingDuration) are the fields of one
 * `Session` object; each callback that updates them is a method.
 *
 * Date.now() is the parameter `now`, the decibel estimate of the tick's
 * time-domain block is the parameter `db`, and the Math.random event id is a
 * counter. React's deferred state updaters are applied at once, in the order
 * the source issues them.
 */
module App {

  import opened Types
  import opened Riff
  import AudioUtils

  // ---------------------------------------------------------------------------
  // Rolling statistics

  /** Math.round on an exact real: the nearest integer, halves rounded up. */
  function Round(x: real): (r: int)
    ensures r as real - 0.5 <= x < r as real + 0.5
  {
    (x + 0.5).Floor
  }

  /** The exponentially smoothed reading: 0.7 of the previous value, 0.3 of the new one. */
  function Smooth(prev: int, db: nat): (r: int)
    ensures prev <= db ==> prev <= r <= db
    ensures db <= prev ==> db <= r <= prev
  {
    Round(prev as real * 0.7 + db as real * 0.3)
  }

  /** The updater the tick passes to setStats, given the accumulators after the tick. */
  function StepStats(prev: AudioStats, db: nat, sum: int, count: nat): (s: AudioStats)
    requires count > 0
    ensures s.max >= prev.max && s.max >= db && (s.max == prev.max || s.max == db)
    ensures db > 10 ==> s.min <= prev.min && s.min <= db && (s.min == prev.min || s.min == db)
    ensures db <= 10 ==> s.min == prev.min
    ensures prev.current <= db ==> prev.current <= s.current <= db
    ensures db <= prev.current ==> db <= s.current <= prev.current
    ensures (s.avg as real) - 0.5 <= sum as real / count as real < (s.avg as real) + 0.5
  {
    AudioStats(
      Smooth(prev.current, db),
      if prev.max >= db then prev.max else db,
      if db > 10 then (if prev.min <= db then prev.min else db) else prev.min,
      Round(sum as real / count as real))
  }

  function SumOf(rs: seq<nat>): nat
    decreases |rs|
  {
    if rs == [] then 0 else SumOf(rs[..|rs| - 1]) + rs[|rs| - 1]
  }

  /** The statistics after the readings `rs`, fed one tick at a time since the last reset. */
  function StatsAfter(rs: seq<nat>): AudioStats
    decreases |rs|
  {
    if rs == [] then InitialStats
    else StepStats(StatsAfter(rs[..|rs| - 1]), rs[|rs| - 1], SumOf(rs), |rs|)
  }

  /** max is the largest reading since the reset, or 0 before the first one. */
  lemma {:induction false} StatsAfterMax(rs: seq<nat>)
    ensures forall i :: 0 <= i < |rs| ==> rs[i] <= StatsAfter(rs).max
    ensures StatsAfter(rs).max == 0 || exists i :: 0 <= i < |rs| && rs[i] == StatsAfter(rs).max
    decreases |rs|
  {
    if rs != [] {
      var init := rs[..|rs| - 1];
      StatsAfterMax(init);
      var m := StatsAfter(rs).max;
      assert forall i :: 0 <= i < |init| ==> init[i] == rs[i];
      if m != 0 && m != rs[|rs| - 1] {
        var i :| 0 <= i < |init| && init[i] == m;
        assert rs[i] == m;
      }
    }
  }

  /** min is the smallest reading above the noise floor of 10, or 100 before there is one. */
  lemma {:induction false} StatsAfterMin(rs: seq<nat>)
    ensures forall i :: 0 <= i < |rs| && rs[i] > 10 ==> StatsAfter(rs).min <= rs[i]
    ensures StatsAfter(rs).min <= 100
    ensures StatsAfter(rs).min == 100
            || exists i :: 0 <= i < |rs| && rs[i] > 10 && rs[i] == StatsAfter(rs).min
    decreases |rs|
  {
    if rs != [] {
      var init := rs[..|rs| - 1];
      StatsAfterMin(init);
      var m := StatsAfter(rs).min;
      assert forall i :: 0 <= i < |init| ==> init[i] == rs[i];
      if m != 100 && m != StatsAfter(init).min {
        assert rs[|rs| - 1] == m;
      } else if m != 100 {
        var i :| 0 <= i < |init| && init[i] > 10 && init[i] == m;
        assert rs[i] == m;
      }
    }
  }

  /** avg is the rounded mean of every reading since the reset. */
  lemma StatsAfterAvg(rs: seq<nat>)
    requires rs != []
    ensures var a := StatsAfter(rs).avg;
            a as real - 0.5 <= SumOf(rs) as real / |rs| as real < a as real + 0.5
  {
  }

  /** Across further ticks max never decreases and min never increases. */
  lemma {:induction false} StatsAfterMonotone(rs: seq<nat>, more: seq<nat>)
    ensures StatsAfter(rs).max <= StatsAfter(rs + more).max
    ensures StatsAfter(rs + more).min <= StatsAfter(rs).min
    decreases |more|
  {
    if more != [] {
      var init := more[..|more| - 1];
      StatsAfterMonotone(rs, init);
      assert (rs + more)[..|rs + more| - 1] == rs + init;
    } else {
      assert rs + more == rs;
    }
  }

  // ---------------------------------------------------------------------------
  // Event debounce

  /** A reading above the warning threshold more than 2000 ms after the last event. */
  predicate TriggersEvent(db: int, now: int, lastEventTime: int)
    ensures TriggersEvent(db, now, lastEventTime) ==> AudioUtils.DetermineSafetyLevel(db) != Safe
  {
    db > DbThresholdWarning && now - lastEventTime > EventCooldownMs
  }

  /** Consecutive events lie more than the cooldown apart. */
  ghost predicate EventsSpaced(events: seq<AudioEvent>) {
    forall k :: 0 < k < |events| ==> events[k].timestamp - events[k - 1].timestamp > EventCooldownMs
  }

  /** An event stamped `now` that passes the debounce test keeps the log spaced. */
  lemma TriggerKeepsSpacing(events: seq<AudioEvent>, lastEventTime: int, db: int, now: int, e: AudioEvent)
    requires EventsSpaced(events)
    requires events != [] ==> events[|events| - 1].timestamp == lastEventTime
    requires TriggersEvent(db, now, lastEventTime) && e.timestamp == now
    ensures EventsSpaced(events + [e])
  {
  }

  /** The running sum, count and statistics agree with the readings since the reset. */
  ghost predicate StatsAgree(readings: seq<nat>, dbSum: nat, dbCount: nat, stats: AudioStats) {
    dbCount == |readings| && dbSum == SumOf(readings) && stats == StatsAfter(readings)
  }

  /**
   * The event log: spaced by the cooldown, the last event at lastEventTime,
   * every event loud, typed and with an id below the next one, ids increasing.
   */
  ghost predicate EventLog(events: seq<AudioEvent>, lastEventTime: int, nextEventId: nat) {
    && EventsSpaced(events)
    && (events != [] ==> events[|events| - 1].timestamp == lastEventTime)
    && (forall k :: 0 <= k < |events| ==>
          events[k].db > DbThresholdWarning && events[k].kind != Voice && events[k].id < nextEventId)
    && (forall k :: 0 < k < |events| ==> events[k - 1].id < events[k].id)
  }

  /** Ids increase along the log, hence no two events share one. */
  lemma IdsUnique(events: seq<AudioEvent>)
    requires forall k :: 0 < k < |events| ==> events[k - 1].id < events[k].id
    ensures forall i, j :: 0 <= i < j < |events| ==> events[i].id < events[j].id
  {
    forall i, j | 0 <= i < j < |events|
      ensures events[i].id < events[j].id
    {
      IdsIncrease(events, i, j);
    }
  }

  lemma {:induction false} IdsIncrease(events: seq<AudioEvent>, i: nat, j: nat)
    requires forall k :: 0 < k < |events| ==> events[k - 1].id < events[k].id
    requires i < j < |events|
    ensures events[i].id < events[j].id
    decreases j - i
  {
    if i + 1 < j {
      IdsIncrease(events, i + 1, j);
    }
  }

  /**
   * The type analyzeFrequency gives an event, for the analyser's 1024 bins at
   * 44.1 kHz: Structure exactly when low frequencies dominate. Voice is never
   * produced.
   */
  function EventKind(spectrum: seq<Byte>): (k: SoundType)
    ensures k != Voice
    ensures k == Structure <==> AudioUtils.LowFrequencyDominant(spectrum, SampleRate, FftSize / 2)
  {
    if AudioUtils.LowFrequencyDominant(spectrum, SampleRate, FftSize / 2) then Structure else Environment
  }

  // ---------------------------------------------------------------------------
  // PCM capture buffer

  function TotalLength(chunks: seq<seq<real>>): nat
    decreases |chunks|
  {
    if chunks == [] then 0 else TotalLength(chunks[..|chunks| - 1]) + |chunks[|chunks| - 1]|
  }

  /** The chunks one after another, in append order. */
  function Flatten(chunks: seq<seq<real>>): (r: seq<real>)
    ensures |r| == TotalLength(chunks)
    decreases |chunks|
  {
    if chunks == [] then [] else Flatten(chunks[..|chunks| - 1]) + chunks[|chunks| - 1]
  }

  lemma {:induction false} TotalLengthPrefix(chunks: seq<seq<real>>, k: nat)
    requires k < |chunks|
    ensures TotalLength(chunks[..k]) + |chunks[k]| <= TotalLength(chunks)
    decreases |chunks|
  {
    var init := chunks[..|chunks| - 1];
    if k < |chunks| - 1 {
      TotalLengthPrefix(init, k);
      assert init[..k] == chunks[..k];
      assert init[k] == chunks[k];
    } else {
      assert init == chunks[..k];
    }
  }

  /** Sample j of chunk k sits at the sum of the lengths of the chunks before it, plus j. */
  lemma {:induction false} FlattenAt(chunks: seq<seq<real>>, k: nat, j: nat)
    requires k < |chunks| && j < |chunks[k]|
    ensures TotalLength(chunks[..k]) + j < |Flatten(chunks)|
    ensures Flatten(chunks)[TotalLength(chunks[..k]) + j] == chunks[k][j]
    decreases |chunks|
  {
    TotalLengthPrefix(chunks, k);
    var init := chunks[..|chunks| - 1];
    if k < |chunks| - 1 {
      FlattenAt(init, k, j);
      assert init[..k] == chunks[..k];
      assert init[k] == chunks[k];
    } else {
      assert init == chunks[..k];
    }
  }

  /**
   * The JavaScript TypedArray slice(start, end): negative bounds count from
   * the end, bounds past the end are clamped, and an empty range gives [].
   */
  function JsSlice(s: seq<real>, start: int, end: int): (r: seq<real>)
    ensures 0 <= start <= end ==> r == s[Min(start, |s|)..Min(end, |s|)]
  {
    var len := |s|;
    var from := if start < 0 then Max(len + start, 0) else Min(start, len);
    var to := if end < 0 then Max(len + end, 0) else Min(end, len);
    if from < to then s[from..to] else []
  }

  function Min(a: int, b: int): int { if a <= b then a else b }
  function Max(a: int, b: int): int { if a >= b then a else b }

  /** First sample of an event's clip: three seconds before the event, not before 0. */
  function ClipStart(t: real): (r: int)
    ensures r >= 0
    ensures t <= 3.0 ==> r == 0
    ensures t >= 3.0 ==> r == ((t - 3.0) * SampleRate as real).Floor
  {
    (Max0(t - 3.0) * SampleRate as real).Floor
  }

  /**
   * One past the last sample of an event's clip: four seconds after the
   * event, so never more than seven seconds of samples after ClipStart.
   */
  function ClipEnd(t: real): (r: int)
    ensures t >= -4.0 ==> ClipStart(t) <= r <= ClipStart(t) + 7 * SampleRate
  {
    if t >= -4.0 then
      ClipSpan(t);
      ((t + 4.0) * SampleRate as real).Floor
    else
      ((t + 4.0) * SampleRate as real).Floor
  }

  /** The sample four seconds after t lies between ClipStart and seven seconds past it. */
  lemma ClipSpan(t: real)
    requires t >= -4.0
    ensures ClipStart(t) <= ((t + 4.0) * SampleRate as real).Floor <= ClipStart(t) + 7 * SampleRate
  {
    var sr := SampleRate as real;
    if t >= 3.0 {
      assert (t + 4.0) * sr == (t - 3.0) * sr + (7 * SampleRate) as real;
      FloorShift((t - 3.0) * sr, 7 * SampleRate);
      FloorMono((t - 3.0) * sr, (t + 4.0) * sr);
    } else {
      FloorMono(0.0, (t + 4.0) * sr);
      FloorMono((t + 4.0) * sr, (7 * SampleRate) as real);
    }
  }

  function Max0(x: real): (r: real)
    ensures r >= 0.0 && r >= x && (r == 0.0 || r == x)
  {
    if x >= 0.0 then x else 0.0
  }

  /** The samples playEventAudio encodes for an event at `t` seconds, if any. */
  function EventClip(merged: seq<real>, t: real): (r: Option<seq<real>>)
    ensures r.None? <==> ClipStart(t) >= |merged|
    ensures r.Some? && t >= -4.0 ==>
      r.value == merged[ClipStart(t)..Min(ClipEnd(t), |merged|)] && |r.value| <= 7 * SampleRate
  {
    var startSample := ClipStart(t);
    if startSample >= |merged| then None
    else Some(JsSlice(merged, startSample, Min(ClipEnd(t), |merged|)))
  }

  /**
   * For an event time not more than four seconds before the recording start,
   * the clip is the window [ClipStart, min(ClipEnd, length)) of the merged
   * buffer: at most seven seconds long, and it holds the event's own sample
   * when the event lies inside the buffer.
   */
  lemma EventClipWindow(merged: seq<real>, t: real)
    requires t >= -4.0
    ensures var s, e := ClipStart(t), ClipEnd(t);
      && 0 <= s <= e
      && (EventClip(merged, t).None? <==> s >= |merged|)
      && (s < |merged| ==> EventClip(merged, t) == Some(merged[s..Min(e, |merged|)]))
      && e - s <= 7 * SampleRate
      && (t >= 0.0 ==> s <= (t * SampleRate as real).Floor < e)
  {
    var sr := SampleRate as real;
    var s, e := ClipStart(t), ClipEnd(t);
    if t >= 3.0 {
      assert (t + 4.0) * sr == (t - 3.0) * sr + 7.0 * sr;
      FloorShift((t - 3.0) * sr, 7 * SampleRate);
    } else {
      assert s == 0;
      assert (t + 4.0) * sr < 7.0 * sr;
    }
    if t >= 0.0 {
      assert Max0(t - 3.0) * sr <= t * sr < (t + 4.0) * sr;
      FloorMono(Max0(t - 3.0) * sr, t * sr);
      FloorShift(t * sr, 4 * SampleRate);
      assert (t + 4.0) * sr == t * sr + (4 * SampleRate) as real;
    }
    if s < |merged| {
      assert Min(e, |merged|) >= s;
    }
  }

  lemma FloorShift(x: real, n: int)
    ensures (x + n as real).Floor == x.Floor + n
  {
  }

  lemma FloorMono(x: real, y: real)
    requires x <= y
    ensures x.Floor <= y.Floor
  {
  }

  // ---------------------------------------------------------------------------
  // The session

  class Session {
    var isRecording: bool
    var permissionDenied: bool
    var stats: AudioStats
    var safetyLevel: SafetyLevel
    var events: seq<AudioEvent>
    var recordingDuration: real
    var lastEventTime: int
    var chunks: seq<seq<real>>
    var recordingStartTime: int
    var dbSum: nat
    var dbCount: nat
    var nextEventId: nat
    /** The readings fed since the last reset. */
    ghost var readings: seq<nat>

    ghost predicate Valid()
      reads this`dbCount, this`dbSum, this`stats, this`readings
      reads this`events, this`lastEventTime, this`nextEventId
    {
      StatsAgree(readings, dbSum, dbCount, stats) && EventLog(events, lastEventTime, nextEventId)
    }

    /** The component's initial state. */
    constructor ()
      ensures Valid()
      ensures !isRecording && !permissionDenied
      ensures stats == InitialStats && safetyLevel == Safe && events == []
      ensures recordingDuration == 0.0 && lastEventTime == 0 && chunks == []
      ensures recordingStartTime == 0 && readings == []
    {
      isRecording, permissionDenied := false, false;
      stats, safetyLevel, events := InitialStats, Safe, [];
      recordingDuration, lastEventTime := 0.0, 0;
      chunks, recordingStartTime := [], 0;
      dbSum, dbCount, nextEventId := 0, 0, 0;
      readings := [];
    }

    /**
     * One analysis tick with reading `db` at time `now`: update the
     * accumulators and statistics, set the safety level, and record an event
     * when the reading is above 50 and the last event is more than 2000 ms old.
     */
    method Tick(db: nat, now: int, spectrum: seq<Byte>)
      requires Valid()
      modifies this`dbSum, this`dbCount, this`readings, this`stats, this`safetyLevel
      modifies this`events, this`nextEventId, this`lastEventTime
      ensures Valid()
      ensures readings == old(readings) + [db]
      ensures safetyLevel == AudioUtils.DetermineSafetyLevel(db)
      ensures TriggersEvent(db, now, old(lastEventTime)) ==>
        && lastEventTime == now && nextEventId == old(nextEventId) + 1
        && events == old(events) + [AudioEvent(old(nextEventId), now,
             (now - recordingStartTime) as real / 1000.0, db, EventKind(spectrum))]
      ensures !TriggersEvent(db, now, old(lastEventTime)) ==>
        events == old(events) && lastEventTime == old(lastEventTime)
        && nextEventId == old(nextEventId)
    {
      UpdateStats(db);
      SetSafetyLevel(AudioUtils.DetermineSafetyLevel(db));
      DetectEvent(db, now, spectrum);
    }

    /** The setSafetyLevel state setter. */
    method SetSafetyLevel(level: SafetyLevel)
      modifies this`safetyLevel
      ensures safetyLevel == level
    {
      safetyLevel := level;
    }

    /** The event step of a tick: log an event when the reading is loud and the cooldown has passed. */
    method DetectEvent(db: nat, now: int, spectrum: seq<Byte>)
      requires Valid()
      modifies this`events, this`nextEventId, this`lastEventTime
      ensures Valid()
      ensures TriggersEvent(db, now, old(lastEventTime)) ==>
        && lastEventTime == now && nextEventId == old(nextEventId) + 1
        && events == old(events) + [AudioEvent(old(nextEventId), now,
             (now - recordingStartTime) as real / 1000.0, db, EventKind(spectrum))]
      ensures !TriggersEvent(db, now, old(lastEventTime)) ==>
        events == old(events) && lastEventTime == old(lastEventTime)
        && nextEventId == old(nextEventId)
    {
      if db > DbThresholdWarning && now - lastEventTime > 2000 {
        RecordEvent(db, now, spectrum);
      }
    }

    /** The accumulator and setStats part of a tick. */
    method UpdateStats(db: nat)
      requires Valid()
      modifies this`dbSum, this`dbCount, this`readings, this`stats
      ensures Valid()
      ensures readings == old(readings) + [db]
      ensures stats == StepStats(old(stats), db, old(dbSum) + db, old(dbCount) + 1)
    {
      ghost var rs := readings + [db];
      assert rs[..|rs| - 1] == readings;
      assert SumOf(rs) == dbSum + db;
      assert StatsAfter(rs) == StepStats(stats, db, dbSum + db, dbCount + 1);
      dbSum := dbSum + db;
      dbCount := dbCount + 1;
      readings := rs;
      stats := StepStats(stats, db, dbSum, dbCount);
    }

    /** The event branch of a tick: classify the spectrum and log the event. */
    method RecordEvent(db: nat, now: int, spectrum: seq<Byte>)
      requires Valid() && TriggersEvent(db, now, lastEventTime)
      modifies this`events, this`nextEventId, this`lastEventTime
      ensures Valid()
      ensures lastEventTime == now && nextEventId == old(nextEventId) + 1
      ensures events == old(events) + [AudioEvent(old(nextEventId), now,
                (now - recordingStartTime) as real / 1000.0, db, EventKind(spectrum))]
    {
      var soundType := AudioUtils.AnalyzeFrequency(spectrum, SampleRate, FftSize / 2);
      var newEvent := AudioEvent(
        nextEventId, now, (now - recordingStartTime) as real / 1000.0, db, soundType);
      events := events + [newEvent];
      nextEventId := nextEventId + 1;
      lastEventTime := now;
    }

    /**
     * resetStats: initial statistics, empty accumulators, event log and chunk
     * list, zero duration, and a new start time while recording. The time of
     * the last event is deliberately kept.
     */
    method ResetStats(now: int)
      requires Valid()
      modifies this`stats, this`dbSum, this`dbCount, this`readings, this`events
      modifies this`chunks, this`recordingDuration, this`recordingStartTime
      ensures Valid()
      ensures stats == InitialStats && dbSum == 0 && dbCount == 0 && readings == []
      ensures events == [] && chunks == [] && recordingDuration == 0.0
      ensures recordingStartTime == if isRecording then now else old(recordingStartTime)
    {
      stats := InitialStats;
      dbSum, dbCount := 0, 0;
      readings := [];
      events := [];
      chunks := [];
      recordingDuration := 0.0;
      if isRecording {
        recordingStartTime := now;
      }
    }

    /**
     * startAudio at time `now`; `micGranted` is whether the microphone could
     * be acquired. On failure only the error flag and the recording flag
     * change; otherwise the chunk list is emptied and the start time set.
     * The recording duration is not reset here.
     */
    method StartAudio(now: int, micGranted: bool)
      requires Valid()
      modifies this
      ensures Valid()
      ensures permissionDenied == !micGranted && isRecording == micGranted
      ensures micGranted ==> chunks == [] && recordingStartTime == now
      ensures !micGranted ==> chunks == old(chunks) && recordingStartTime == old(recordingStartTime)
      ensures stats == old(stats) && events == old(events) && readings == old(readings)
      ensures dbSum == old(dbSum) && dbCount == old(dbCount)
      ensures lastEventTime == old(lastEventTime) && nextEventId == old(nextEventId)
      ensures recordingDuration == old(recordingDuration) && safetyLevel == old(safetyLevel)
    {
      permissionDenied := false;
      if !micGranted {
        permissionDenied := true;
        isRecording := false;
        return;
      }
      chunks := [];
      recordingStartTime := now;
      isRecording := true;
    }

    /** stopAudio: only the recording flag changes, so stopping twice is harmless. */
    method StopAudio()
      requires Valid()
      modifies this`isRecording
      ensures Valid() && !isRecording
    {
      isRecording := false;
    }

    /** onaudioprocess: append a copy of the chunk and add its duration. */
    method AppendChunk(chunk: seq<real>)
      requires Valid()
      modifies this`chunks, this`recordingDuration
      ensures Valid()
      ensures chunks == old(chunks) + [chunk]
      ensures recordingDuration == old(recordingDuration) + |chunk| as real / SampleRate as real
    {
      chunks := chunks + [chunk];
      recordingDuration := recordingDuration + |chunk| as real / SampleRate as real;
    }

    /** getMergedPCM: one array holding every chunk at its running offset. */
    method GetMergedPCM() returns (result: array<real>)
      ensures result.Length == TotalLength(chunks)
      ensures result[..] == Flatten(chunks)
    {
      var totalLength := TotalLength(chunks);
      result := new real[totalLength];
      var offset := 0;
      for k := 0 to |chunks|
        invariant offset == TotalLength(chunks[..k]) <= totalLength
        invariant result[..offset] == Flatten(chunks[..k])
      {
        var chunk := chunks[k];
        TotalLengthPrefix(chunks, k);
        assert chunks[..k + 1][..k] == chunks[..k];
        ghost var before := result[..offset];
        forall j | 0 <= j < |chunk| {
          result[offset + j] := chunk[j];
        }
        assert result[..offset] == before;
        assert result[..offset + |chunk|] == result[..offset] + chunk;
        offset := offset + |chunk|;
      }
      assert chunks[..|chunks|] == chunks;
      assert result[..] == result[..offset];
    }

    /** saveRecording: nothing without captured chunks, else the WAV file of the merged buffer. */
    method SaveRecording() returns (file: Option<seq<Byte>>)
      ensures chunks == [] ==> file == None
      ensures chunks != [] ==> file == Some(AudioUtils.WavFile(Flatten(chunks), SampleRate))
    {
      if |chunks| == 0 {
        return None;
      }
      var mergedData := GetMergedPCM();
      var wav := AudioUtils.EncodeWav(mergedData[..], SampleRate);
      return Some(wav[..]);
    }

    /**
     * playEventAudio: nothing without captured chunks or when the clip would
     * start past the end of the buffer; otherwise the WAV file of the clip
     * from three seconds before the event to four seconds after it.
     */
    method PlayEventAudio(event: AudioEvent) returns (clip: Option<seq<Byte>>)
      ensures chunks == [] ==> clip == None
      ensures chunks != [] ==> clip == match EventClip(Flatten(chunks), event.relativeTime)
        case None => None
        case Some(samples) => Some(AudioUtils.WavFile(samples, SampleRate))
    {
      if |chunks| == 0 {
        return None;
      }
      var targetTime := event.relativeTime;
      var startSample := ClipStart(targetTime);
      var endSample := ClipEnd(targetTime);

      var mergedData := GetMergedPCM();
      if startSample >= mergedData.Length {
        return None;
      }
      var slice := JsSlice(mergedData[..], startSample, Min(endSample, mergedData.Length));
      assert EventClip(Flatten(chunks), targetTime) == Some(slice);
      var wav := AudioUtils.EncodeWav(slice, SampleRate);
      return Some(wav[..]);
    }
  }
}
