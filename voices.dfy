/** `playSine`, identical in both ambient engines: one sine oscillator with a
    linear attack/decay/sustain/release gain envelope and an optional 4.5 Hz
    vibrato. The Web Audio nodes are not modelled; what is kept is every
    number the method hands to them, as a schedule. */
module Voices {
  import opened Options
  import opened Common
  import opened Conversion

  datatype Envelope = Envelope(attack: real, decay: real, sustain: real, release: real)

  /** One `playSine` call. The oscillator frequency is
      `rootHz * 2^(semitone / 12) * factor` (the power is left abstract);
      `factor` carries the pad detune (0.995, 1.005) and the bass halving. A
      `vibrato` of 0 stands for the absent optional argument, which
      JavaScript treats the same way (`if (vibrato)`). */
  datatype Voice = Voice(rootHz: real, semitone: int, factor: real, start: real,
                         duration: real, amp: real, env: Envelope, vibrato: real)

  /** `setValueAtTime` and `linearRampToValueAtTime` on the note's gain. */
  datatype GainEvent = SetValue(time: real, value: real) | LinearRamp(time: real, value: real)

  datatype Lfo = Lfo(rate: real, depth: real, start: real, stop: real)

  datatype NoteSchedule = NoteSchedule(gain: seq<GainEvent>, oscStart: real, oscStop: real, vibrato: Option<Lfo>)

  /** The level the release ramps down to (an exponential-safe near-zero). */
  const ReleaseFloor: real := 0.0001
  /** How long after the release the oscillators are stopped. */
  const StopGuard: real := 0.05
  const VibratoRate: real := 4.5

  /** The end of the sustain hold: `t0 + max(a + d, dur)`. */
  function HoldEnd(v: Voice): real
  {
    v.start + Max(v.env.attack + v.env.decay, v.duration)
  }

  /** Everything `playSine` schedules for one voice. */
  function PlaySine(v: Voice): (s: NoteSchedule)
    ensures |s.gain| == 5 && s.gain[0] == SetValue(v.start, 0.0) && s.oscStart == v.start
    ensures s.vibrato.Some? <==> v.vibrato != 0.0
  {
    var e := v.env;
    var hold := HoldEnd(v);
    NoteSchedule(
      [ SetValue(v.start, 0.0),
        LinearRamp(v.start + e.attack, v.amp),
        LinearRamp(v.start + e.attack + e.decay, v.amp * e.sustain),
        SetValue(hold, v.amp * e.sustain),
        LinearRamp(hold + e.release, ReleaseFloor) ],
      v.start,
      hold + e.release + StopGuard,
      if v.vibrato != 0.0
      then Some(Lfo(VibratoRate, v.vibrato, v.start, v.start + v.duration + e.release + StopGuard))
      else None)
  }

  /** With non-negative envelope stages the gain breakpoints never go back in
      time, the envelope starts silent at the onset, peaks at `amp` after
      the attack, holds the sustain level until the hold end, and the
      oscillator stops a fixed guard after the last ramp; a vibrato
      oscillator, when there is one, never outlives the note's oscillator. */
  lemma PlaySineOrdered(v: Voice)
    requires v.env.attack >= 0.0 && v.env.decay >= 0.0 && v.env.release >= 0.0
    ensures var s := PlaySine(v);
            (forall i, j :: 0 <= i < j < 5 ==> s.gain[i].time <= s.gain[j].time) &&
            s.gain[0] == SetValue(v.start, 0.0) &&
            s.gain[1].value == v.amp &&
            s.gain[2].value == s.gain[3].value == v.amp * v.env.sustain &&
            s.gain[4].value == ReleaseFloor &&
            s.oscStart == v.start &&
            s.oscStop == s.gain[4].time + StopGuard &&
            s.gain[3].time - v.start >= v.duration &&
            (s.vibrato.Some? <==> v.vibrato != 0.0) &&
            (s.vibrato.Some? ==> s.vibrato.value.start == v.start && s.vibrato.value.stop <= s.oscStop)
  {
  }

  /** The envelopes, amplitudes and lengths that both engines' `tick` give
      their three parts. The melody lasts 0.85 of a beat with a 1.5 Hz deep
      vibrato, the pad is two voices detuned by half a percent either way
      and lasts a beat, the bass an octave lower again (the `/ 2`) lasts
      0.7 of a beat. */
  const MelodyEnvelope: Envelope := Envelope(0.02, 0.2, 0.55, 0.25)
  const PadLowEnvelope: Envelope := Envelope(0.5, 0.8, 0.7, 0.8)
  const PadHighEnvelope: Envelope := Envelope(0.6, 0.8, 0.7, 0.9)
  const BassEnvelope: Envelope := Envelope(0.005, 0.15, 0.25, 0.2)

  /** `60 / bpm`: the length of one beat in seconds, as `beatsToSeconds`
      computes it for a single beat. */
  function BeatSeconds(bpm: real): (s: real)
    requires bpm != 0.0
    ensures s == BeatsToSeconds(1.0, bpm)
    ensures bpm > 0.0 ==> s > 0.0
  {
    60.0 / bpm
  }

  function MelodyVoice(rootHz: real, semitone: int, t0: real, beatSec: real): Voice
  {
    Voice(rootHz, semitone, 1.0, t0, beatSec * 0.85, 0.22, MelodyEnvelope, 1.5)
  }

  function PadVoices(rootHz: real, semitone: int, t0: real, beatSec: real): seq<Voice>
  {
    [ Voice(rootHz, semitone, 0.995, t0, beatSec * 1.0, 0.12, PadLowEnvelope, 0.0),
      Voice(rootHz, semitone, 1.005, t0, beatSec * 1.0, 0.12, PadHighEnvelope, 0.0) ]
  }

  function BassVoice(rootHz: real, semitone: int, t0: real, beatSec: real): Voice
  {
    Voice(rootHz, semitone, 0.5, t0, beatSec * 0.7, 0.18, BassEnvelope, 0.0)
  }

  /** A voice whose envelope stages are non-negative and whose sustain level
      is a fraction of the peak, so that `PlaySineOrdered` applies to it. */
  predicate WellShaped(v: Voice)
  {
    v.env.attack >= 0.0 && v.env.decay >= 0.0 && v.env.release >= 0.0 &&
    0.0 <= v.env.sustain <= 1.0 && v.amp > 0.0
  }

  /** A voice of the engine's root that starts at `t0`, lasts a positive
      time and is well shaped. */
  predicate StartsWell(v: Voice, rootHz: real, t0: real)
  {
    v.start == t0 && v.rootHz == rootHz && v.duration > 0.0 && WellShaped(v)
  }

  /** For a positive beat length every part both engines play starts well. */
  lemma PartsStartWell(rootHz: real, melody: int, pad: int, bass: int, t0: real, beatSec: real)
    requires beatSec > 0.0
    ensures StartsWell(MelodyVoice(rootHz, melody, t0, beatSec), rootHz, t0)
    ensures StartsWell(PadVoices(rootHz, pad, t0, beatSec)[0], rootHz, t0)
    ensures StartsWell(PadVoices(rootHz, pad, t0, beatSec)[1], rootHz, t0)
    ensures StartsWell(BassVoice(rootHz, bass, t0, beatSec), rootHz, t0)
  {
  }
}
