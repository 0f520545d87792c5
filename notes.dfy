/** The sequencer's note object (src/core/sequencer/Note.ts). Ids come
    from a clock-and-random generator in the source; here they are handed
    in by the caller and otherwise opaque. */
module Notes {

  class Note {
    const id: string
    /** MIDI note number. */
    var pitch: real
    /** Onset, in beats. */
    var time: real
    /** Length, in beats. */
    var duration: real
    /** Loudness, nominally in [0, 1]. */
    var velocity: real

    /** `new Note(pitch, time, duration = 1, velocity = 0.8)`. */
    constructor (id: string, pitch: real, time: real, duration: real := 1.0, velocity: real := 0.8)
      ensures this.id == id && this.pitch == pitch && this.time == time
      ensures this.duration == duration && this.velocity == velocity
    {
      this.id := id;
      this.pitch := pitch;
      this.time := time;
      this.duration := duration;
      this.velocity := velocity;
    }

    /** `clone()`: a new note object, with a new id, carrying the same
        musical values. */
    method Clone(newId: string) returns (n: Note)
      ensures fresh(n) && n.id == newId
      ensures n.pitch == pitch && n.time == time && n.duration == duration && n.velocity == velocity
    {
      n := new Note(newId, pitch, time, duration, velocity);
    }

    /** `transpose(semitones)`: shift the pitch; nothing else changes. */
    method Transpose(semitones: real)
      modifies this`pitch
      ensures pitch == old(pitch) + semitones
    {
      pitch := pitch + semitones;
    }
  }

  /** Transposing up and back down restores the pitch, and a clone is
      independent of its original: changing one leaves the other alone. */
  method TransposeBackAndClone(n: Note, semitones: real, newId: string) returns (c: Note)
    modifies n`pitch
    ensures n.pitch == old(n.pitch)
    ensures fresh(c) && c != n && c.pitch == n.pitch + semitones
    ensures c.time == n.time && c.duration == n.duration && c.velocity == n.velocity
  {
    n.Transpose(semitones);
    n.Transpose(-semitones);
    c := n.Clone(newId);
    c.Transpose(semitones);
  }
}
