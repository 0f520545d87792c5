/** The timeline clip of src/core/sequencer/Clip.ts. No method of the
    source mutates a clip, so it is a value here. */
module Clips {
  import opened Options
  import opened JsSemantics
  import opened Common

  datatype Clip = Clip(id: string, name: string, position: real, duration: real, patternId: Option<string>)

  /** `new Clip(position, duration, name?, patternId?)`: an empty name falls
      back to 'Clip' like an absent one. */
  function NewClip(id: string, position: real, duration: real,
                   name: Option<string> := None, patternId: Option<string> := None): (c: Clip)
    ensures c.id == id && c.position == position && c.duration == duration && c.patternId == patternId
    ensures c.name == "Clip" <==> name.None? || name.value == "" || name.value == "Clip"
    ensures c.name != "Clip" ==> name == Some(c.name)
  {
    Clip(id, OrDefault(name, "Clip"), position, duration, patternId)
  }

  /** `overlaps(other)`: the open spans intersect. A beat both clips
      contain is a witness. */
  predicate Overlaps(a: Clip, b: Clip)
    ensures (exists beat :: Contains(a, beat) && Contains(b, beat)) ==> Overlaps(a, b)
  {
    a.position < b.position + b.duration && a.position + a.duration > b.position
  }

  /** `contains(beat)`: the beat lies in the half-open span, so only a
      clip of positive length contains anything. */
  predicate Contains(c: Clip, beat: real)
    ensures Contains(c, beat) ==> c.duration > 0.0 && c.position <= beat
  {
    beat >= c.position && beat < c.position + c.duration
  }

  /** `clone()`: same span, name and pattern under a new id; an empty name
      comes back as 'Clip'. */
  function CloneClip(c: Clip, newId: string): (d: Clip)
    ensures d.id == newId && d.position == c.position && d.duration == c.duration
    ensures d.patternId == c.patternId
    ensures c.name != "" ==> d.name == c.name
    ensures c.name == "" ==> d.name == "Clip"
  {
    NewClip(newId, c.position, c.duration, Some(c.name), c.patternId)
  }

  /** Overlap does not depend on the order of the two clips; a beat lying
      in both clips makes them overlap, and for clips of positive length
      the converse holds too. */
  lemma OverlapsIsCommonBeat(a: Clip, b: Clip)
    ensures Overlaps(a, b) <==> Overlaps(b, a)
    ensures (exists beat :: Contains(a, beat) && Contains(b, beat)) ==> Overlaps(a, b)
    ensures a.duration > 0.0 && b.duration > 0.0 && Overlaps(a, b) ==>
              exists beat :: Contains(a, beat) && Contains(b, beat)
  {
    if a.duration > 0.0 && b.duration > 0.0 && Overlaps(a, b) {
      var beat := Max(a.position, b.position);
      assert Contains(a, beat) && Contains(b, beat);
    }
  }

  /** A clip of zero length contains no beat, yet it still overlaps any
      clip whose open span covers its position. */
  lemma ZeroLengthClip(c: Clip, other: Clip, beat: real)
    requires c.duration == 0.0
    ensures !Contains(c, beat)
    ensures other.position < c.position < other.position + other.duration ==> Overlaps(c, other)
  {
  }
}
