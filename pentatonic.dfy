/** The parameter record, scale tables and degree-to-semitone mapping that
    both ambient engines (src/audio/engine.ts and src/Audio/engine.ts) define
    identically. The
    frequency is `rootHz * 2^(semitone / 12)`; the exponentiation is left
    abstract, so pitches are kept as semitone offsets from the root. */
module Pentatonic {
  import opened JsSemantics

  datatype Scale = MajorPent | MinorPent

  /** `EngineParams`: the scale, the root frequency in Hz, the tempo, a
      complexity meant to lie in [0, 1] and the delay mix. */
  datatype EngineParams = EngineParams(scale: Scale, rootHz: real, bpm: real, complexity: real, mix: real)

  const MajorPentatonic: seq<int> := [0, 2, 4, 7, 9]
  const MinorPentatonic: seq<int> := [0, 3, 5, 7, 10]

  /** `currentScale()`. */
  function ScaleTable(scale: Scale): (t: seq<int>)
    ensures |t| == 5 && t[0] == 0
    ensures forall i, j :: 0 <= i < j < 5 ==> t[i] < t[j] < 12
  {
    if scale == MajorPent then MajorPentatonic else MinorPentatonic
  }

  /** `((degree % 5) + 5) % 5` with JavaScript's truncating remainder: for
      every integer degree, negative ones included, this is the
      mathematical residue modulo 5. */
  function WrapDegree(degree: int): (i: int)
    ensures 0 <= i < 5
    ensures i == degree % 5
  {
    var inner := JsRem(degree, 5);
    WrapDegreeResidue(degree);
    JsRem(inner + 5, 5)
  }

  lemma WrapDegreeResidue(degree: int)
    ensures 0 <= JsRem(degree, 5) + 5 && JsRem(JsRem(degree, 5) + 5, 5) == degree % 5
  {
    if degree >= 0 {
      var m := degree % 5;
      DivModUnique(m + 5, 5, 1, m);
    } else {
      var q, m := (-degree) / 5, (-degree) % 5;
      assert -degree == 5 * q + m;
      if m == 0 {
        DivModUnique(degree, 5, -q, 0);
        DivModUnique(5, 5, 1, 0);
      } else {
        DivModUnique(degree, 5, -q - 1, 5 - m);
        DivModUnique(5 - m, 5, 0, 5 - m);
      }
    }
  }

  /** The semitone offset from the root that `noteHz(degree, octaveShift)`
      sounds: `scale[wrapped degree] + 12 * octaveShift`. */
  function Semitone(scale: Scale, degree: int, octaveShift: int): (s: int)
    ensures exists i :: 0 <= i < 5 && s == ScaleTable(scale)[i] + 12 * octaveShift
    ensures 12 * octaveShift <= s < 12 * octaveShift + 12
  {
    ScaleTable(scale)[WrapDegree(degree)] + 12 * octaveShift
  }

  /** Degrees repeat every five steps, octave shifts add twelve semitones,
      and within one octave the pitch stays below the next octave. */
  lemma SemitoneStructure(scale: Scale, degree: int, octaveShift: int)
    ensures Semitone(scale, degree + 5, octaveShift) == Semitone(scale, degree, octaveShift)
    ensures Semitone(scale, degree, octaveShift + 1) == Semitone(scale, degree, octaveShift) + 12
    ensures 12 * octaveShift <= Semitone(scale, degree, octaveShift) < 12 * octaveShift + 12
  {
    var q, m := degree / 5, degree % 5;
    DivModUnique(degree + 5, 5, q + 1, m);
  }
}
