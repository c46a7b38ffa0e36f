/**
 * WaveformView.java: the Android view that keeps the amplitude history, the
 * anomaly markers and the playback cursor. The three fields are updated in
 * place, so the view is a class; drawing is not modelled.
 */
module Waveform {

  import opened Types

  /** An anomaly marker: the amplitude index it sits at, its level and its time in ms. */
  datatype Marker = Marker(index: int, db: int, timestamp: int)

  /** The live view keeps at most this many amplitudes. */
  const WindowSize: nat := 1000

  /**
   * The amplitude list after addAmplitude: `amp` appended, and when that
   * makes the list longer than the window, the single oldest entry removed.
   */
  function Slide(window: seq<real>, amp: real): (r: seq<real>)
    ensures |r| > 0 && r[|r| - 1] == amp
    ensures |window| <= WindowSize ==> |r| <= WindowSize
    ensures |window| < WindowSize ==> r[..|r| - 1] == window
    ensures |window| >= WindowSize ==> r[..|r| - 1] == window[1..]
  {
    var grown := window + [amp];
    if |grown| > WindowSize then
      assert grown[1..][..|window| - 1] == window[1..];
      grown[1..]
    else
      assert grown[..|window|] == window;
      grown
  }

  /** The amplitude list after adding each of `amps` in turn. */
  function SlideAll(window: seq<real>, amps: seq<real>): seq<real>
    decreases |amps|
  {
    if amps == [] then window else Slide(SlideAll(window, amps[..|amps| - 1]), amps[|amps| - 1])
  }

  /** The last min(n, |s|) elements of s. */
  function Last(s: seq<real>, n: nat): (r: seq<real>)
    ensures |r| <= n && |r| <= |s|
  {
    if |s| <= n then s else s[|s| - n..]
  }

  /**
   * Starting from a window of at most 1000 entries, the live view always
   * shows exactly the last 1000 amplitudes it was given (or all of them).
   */
  lemma {:induction false} SlideAllKeepsLast(window: seq<real>, amps: seq<real>)
    requires |window| <= WindowSize
    ensures SlideAll(window, amps) == Last(window + amps, WindowSize)
    decreases |amps|
  {
    if amps == [] {
      assert window + amps == window;
    } else {
      var init := amps[..|amps| - 1];
      var a := amps[|amps| - 1];
      SlideAllKeepsLast(window, init);
      assert window + amps == (window + init) + [a];
    }
  }

  /**
   * Once the window is full, an added amplitude moves every earlier one down
   * by one place, so a marker's stored index then points one amplitude later
   * than the one it was placed at.
   */
  lemma SlideShifts(window: seq<real>, amp: real, i: nat)
    requires |window| >= WindowSize && 0 < i < |window|
    ensures Slide(window, amp)[i - 1] == window[i]
  {
  }

  /** Java float division x / width followed by the clamp to [0, 1]; None where it is NaN. */
  function SeekFraction(x: real, width: nat): (r: Option<real>)
    ensures r.Some? ==> 0.0 <= r.value <= 1.0
    ensures width > 0 ==> r.Some?
    ensures width > 0 && 0.0 <= x <= width as real ==> r == Some(x / width as real)
    ensures width > 0 && x > width as real ==> r == Some(1.0)
    ensures x < 0.0 ==> r == Some(0.0)
    ensures r.None? <==> width == 0 && x == 0.0
  {
    if width == 0 then
      // x / 0.0 is +Infinity, -Infinity or NaN
      if x > 0.0 then Some(1.0) else if x < 0.0 then Some(0.0) else None
    else
      var p := x / width as real;
      DivideByWidth(x, width as real);
      Some(Clamp01(p))
  }

  /** Where x / w falls relative to 0 and 1 for a positive w. */
  lemma DivideByWidth(x: real, w: real)
    requires w > 0.0
    ensures x >= 0.0 <==> x / w >= 0.0
    ensures x <= w <==> x / w <= 1.0
  {
    var p := x / w;
    assert p * w == x;
    ProductSign(p, w);
    ProductAtMost(p, w);
  }

  lemma ProductSign(p: real, w: real)
    requires w > 0.0
    ensures p >= 0.0 <==> p * w >= 0.0
  {
  }

  lemma ProductAtMost(p: real, w: real)
    requires w > 0.0
    ensures p <= 1.0 <==> p * w <= w
  {
  }

  /** Math.max(0, Math.min(1, p)) on a number. */
  function Clamp01(p: real): (r: real)
    ensures 0.0 <= r <= 1.0
    ensures 0.0 <= p <= 1.0 ==> r == p
    ensures p > 1.0 ==> r == 1.0
    ensures p < 0.0 ==> r == 0.0
  {
    var m := if p <= 1.0 then p else 1.0;
    if m >= 0.0 then m else 0.0
  }

  class WaveformView {
    var amplitudes: seq<real>
    var markers: seq<Marker>
    var progress: real

    constructor ()
      ensures amplitudes == [] && markers == [] && progress == 0.0
    {
      amplitudes, markers, progress := [], [], 0.0;
    }

    /** clear: both lists emptied and the cursor back at the start. */
    method Clear()
      modifies this
      ensures amplitudes == [] && markers == [] && progress == 0.0
    {
      amplitudes := [];
      markers := [];
      progress := 0.0;
    }

    /** setSessionData: copies of both lists, without the live window cap. */
    method SetSessionData(amps: seq<real>, marks: seq<Marker>)
      modifies this`amplitudes, this`markers
      ensures amplitudes == amps && markers == marks
    {
      amplitudes := amps;
      markers := marks;
    }

    /** addAmplitude: append, then drop the oldest entry past 1000. */
    method AddAmplitude(amp: real)
      modifies this`amplitudes
      ensures amplitudes == Slide(old(amplitudes), amp)
    {
      amplitudes := amplitudes + [amp];
      if |amplitudes| > WindowSize {
        amplitudes := amplitudes[1..];
      }
    }

    /** addMarker: one marker at the index of the newest amplitude. */
    method AddMarker(db: int, timestamp: int)
      modifies this`markers
      ensures markers == old(markers) + [Marker(|amplitudes| - 1, db, timestamp)]
    {
      markers := markers + [Marker(|amplitudes| - 1, db, timestamp)];
    }

    method SetProgress(p: real)
      modifies this`progress
      ensures progress == p
    {
      progress := p;
    }
  }
}
