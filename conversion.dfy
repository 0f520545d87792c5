/** src/utils/audio/conversion.ts: linear interpolation and the tempo
    conversions between beats and seconds. (The MIDI/decibel conversions are
    transcendental and are not part of this model.) */
module Conversion {
  import opened Common

  /** `a + (b - a) * clamp(t, 0, 1)`. */
  function Lerp(a: real, b: real, t: real): (r: real)
    ensures t <= 0.0 ==> r == a
    ensures t >= 1.0 ==> r == b
  {
    a + (b - a) * Clamp(t, 0.0, 1.0)
  }

  /** The interpolated value never leaves the segment between its ends. */
  lemma LerpBetween(a: real, b: real, t: real)
    ensures Min(a, b) <= Lerp(a, b, t) <= Max(a, b)
  {
    SegmentPoint(a, b, Clamp(t, 0.0, 1.0));
  }

  /** Moving from `a` toward `b` by a fraction in [0, 1] of the distance
      stays between them. */
  lemma SegmentPoint(a: real, b: real, c: real)
    requires 0.0 <= c <= 1.0
    ensures Min(a, b) <= a + (b - a) * c <= Max(a, b)
  {
    if a <= b {
      MulNonneg(b - a, c);
      MulNonneg(b - a, 1.0 - c);
    } else {
      MulNonneg(a - b, c);
      MulNonneg(a - b, 1.0 - c);
    }
  }

  lemma MulNonneg(x: real, y: real)
    requires x >= 0.0 && y >= 0.0
    ensures x * y >= 0.0
  {
  }

  /** Seconds taken by `beats` beats at `bpm` beats per minute; converting
      back gives the beats again. */
  function BeatsToSeconds(beats: real, bpm: real): (s: real)
    requires bpm != 0.0
    ensures SecondsToBeats(s, bpm) == beats
  {
    var s := (beats * 60.0) / bpm;
    assert s * bpm == beats * 60.0;
    s
  }

  /** Beats played in `seconds` seconds at `bpm` beats per minute: at a
      positive tempo no time means no beats, and more time more beats. */
  function SecondsToBeats(seconds: real, bpm: real): (b: real)
    ensures bpm > 0.0 ==> (b > 0.0 <==> seconds > 0.0) && (b == 0.0 <==> seconds == 0.0)
  {
    (seconds * bpm) / 60.0
  }

  /** The two conversions undo each other, in both orders. */
  lemma BeatsSecondsRoundTrip(x: real, bpm: real)
    requires bpm != 0.0
    ensures SecondsToBeats(BeatsToSeconds(x, bpm), bpm) == x
    ensures BeatsToSeconds(SecondsToBeats(x, bpm), bpm) == x
  {
    var s := (x * 60.0) / bpm;
    assert s * bpm == x * 60.0;
    var b := (x * bpm) / 60.0;
    assert b * 60.0 == x * bpm;
  }

  /** One beat lasts `60 / bpm` seconds, and durations add up. */
  lemma BeatsToSecondsLinear(a: real, b: real, bpm: real)
    requires bpm != 0.0
    ensures BeatsToSeconds(1.0, bpm) == 60.0 / bpm
    ensures BeatsToSeconds(a + b, bpm) == BeatsToSeconds(a, bpm) + BeatsToSeconds(b, bpm)
  {
    assert (a + b) * 60.0 == a * 60.0 + b * 60.0;
  }
}
