/** The generative ambient engine of src/audio/engine.ts. Once per beat
    `tick` either takes a cadence to a stable degree or makes a Markov
    interval step, then plays a melody note (unless it rests), a detuned
    two-voice pad and, on a Euclidean 3-in-8 rhythm, a bass note; the pad and
    bass follow a chord offset that changes every bar. Every
    `Math.random()` the beat consumes is an explicit draw in `TickDraws`,
    the timer handle that `setTimeout` returns is a parameter, and the notes
    are returned as `Voice` values instead of being sent to Web Audio. */
module AmbientEngines {
  import opened Options
  import opened JsSemantics
  import opened Seqs
  import opened Conversion
  import opened Pentatonic
  import opened Voices
  import opened Selection
  import opened Fx

  /** The five intervals a Markov step can take, in table order. */
  const Intervals: seq<int> := [-2, -1, 0, 1, 2]

  /** The transition table: row `i` holds the weights of the next interval
      after the interval `Intervals[i]`. */
  const BaseWeights: seq<seq<real>> := [
    [0.2, 0.3, 0.3, 0.15, 0.05],
    [0.15, 0.25, 0.35, 0.2, 0.05],
    [0.1, 0.2, 0.4, 0.2, 0.1],
    [0.05, 0.2, 0.35, 0.25, 0.15],
    [0.05, 0.15, 0.3, 0.3, 0.2]
  ]

  /** The weight of each interval under the uniform distribution. */
  const Uniform: real := 0.2

  /** The row of the transition table the last interval selects. */
  function TransitionRow(lastInterval: int): (row: seq<real>)
    ensures |row| == 5
  {
    if -2 <= lastInterval <= 2 then BaseWeights[lastInterval + 2] else BaseWeights[2]
  }

  /** The row is the one `intervals.indexOf(lastInterval)` finds, and an
      interval that is not in the list falls back to the centre row. */
  lemma TransitionRowIsIndexLookup(lastInterval: int)
    ensures var i := IndexOf(Intervals, lastInterval);
            (i >= 0 <==> -2 <= lastInterval <= 2) &&
            TransitionRow(lastInterval) == if i >= 0 then BaseWeights[i] else BaseWeights[2]
    ensures lastInterval !in Intervals ==> TransitionRow(lastInterval) == BaseWeights[2]
  {
    if -2 <= lastInterval <= 2 {
      assert Intervals[lastInterval + 2] == lastInterval;
    }
  }

  /** `row.map(w => w * (1 - c) + uniform * c)`. */
  function Blend(row: seq<real>, c: real): (w: seq<real>)
    ensures |w| == |row|
  {
    seq(|row|, i requires 0 <= i < |row| => row[i] * (1.0 - c) + Uniform * c)
  }

  function MarkovWeights(lastInterval: int, c: real): (w: seq<real>)
    ensures |w| == 5
  {
    Blend(TransitionRow(lastInterval), c)
  }

  /** The table index the cumulative selection picks for a draw in [0, 1):
      the draw is scaled by the weights' total. */
  function MarkovChoice(lastInterval: int, c: real, draw: real): (idx: nat)
    ensures idx < 5
  {
    var w := MarkovWeights(lastInterval, c);
    FirstReaching(w, ScaledDraw(draw, w))
  }

  /** The new `(degree, lastInterval)` after `markovStep`. The degree moves
      by the chosen interval and is reduced with `(degree + interval + 5) % 5`;
      from any degree that is not below -3 that is the residue modulo 5. */
  function MarkovNext(degree: int, lastInterval: int, c: real, draw: real): (r: (int, int))
    ensures -2 <= r.1 <= 2
    ensures r.1 == Intervals[MarkovChoice(lastInterval, c, draw)]
    ensures degree >= -3 ==> r.0 == (degree + r.1) % 5
    ensures 0 <= degree < 5 ==> 0 <= r.0 < 5
  {
    var interval := Intervals[MarkovChoice(lastInterval, c, draw)];
    AddPeriod(degree + interval);
    (JsRem(degree + interval + 5, 5), interval)
  }

  lemma SumOfFive(w: seq<real>)
    requires |w| == 5
    ensures Sum(w) == w[0] + w[1] + w[2] + w[3] + w[4]
  {
    PrefixSumStep(w, 0);
    PrefixSumStep(w, 1);
    PrefixSumStep(w, 2);
    PrefixSumStep(w, 3);
    PrefixSumStep(w, 4);
    assert w[..5] == w;
  }

  /** Adding a whole period does not change the residue. */
  lemma AddPeriod(a: int)
    ensures (a + 5) % 5 == a % 5
  {
    DivModUnique(a + 5, 5, a / 5 + 1, a % 5);
  }

  /** Blending scales the total by `1 - c` and adds `c` (five times the
      uniform weight). */
  lemma BlendSum(row: seq<real>, c: real)
    requires |row| == 5
    ensures Sum(Blend(row, c)) == (1.0 - c) * Sum(row) + c
  {
    var w := Blend(row, c);
    var k := 1.0 - c;
    SumOfFive(row);
    SumOfFive(w);
    assert w[0] + w[1] + w[2] + w[3] + w[4]
        == row[0] * k + row[1] * k + row[2] * k + row[3] * k + row[4] * k + 5.0 * Uniform * c;
    assert row[0] * k + row[1] * k + row[2] * k + row[3] * k + row[4] * k
        == (row[0] + row[1] + row[2] + row[3] + row[4]) * k;
  }

  /** Every row of the transition table is a probability distribution. */
  lemma BaseRowsAreDistributions()
    ensures forall i :: 0 <= i < 5 ==> |BaseWeights[i]| == 5 && Sum(BaseWeights[i]) == 1.0
    ensures forall i, j :: 0 <= i < 5 && 0 <= j < 5 ==> BaseWeights[i][j] >= 0.0
  {
    SumOfFive(BaseWeights[0]);
    SumOfFive(BaseWeights[1]);
    SumOfFive(BaseWeights[2]);
    SumOfFive(BaseWeights[3]);
    SumOfFive(BaseWeights[4]);
  }

  /** For a complexity in [0, 1] the blended weights are again a probability
      distribution; complexity 0 keeps the table row and complexity 1 is the
      uniform distribution. */
  lemma BlendIsDistribution(lastInterval: int, c: real)
    requires 0.0 <= c <= 1.0
    ensures var w := MarkovWeights(lastInterval, c);
            (forall i :: 0 <= i < 5 ==> w[i] >= 0.0) && Sum(w) == 1.0
    ensures c == 0.0 ==> MarkovWeights(lastInterval, c) == TransitionRow(lastInterval)
    ensures c == 1.0 ==> MarkovWeights(lastInterval, c) == [Uniform, Uniform, Uniform, Uniform, Uniform]
  {
    var row := TransitionRow(lastInterval);
    var w := MarkovWeights(lastInterval, c);
    BaseRowsAreDistributions();
    assert Sum(row) == 1.0 && forall j :: 0 <= j < 5 ==> row[j] >= 0.0;
    BlendSum(row, c);
    forall i | 0 <= i < 5
      ensures w[i] >= 0.0
    {
      MulNonneg(row[i], 1.0 - c);
      MulNonneg(Uniform, c);
    }
  }

  /** With a complexity in [0, 1] the weights sum to 1, so the draw itself is
      compared with the cumulative weights: the chosen interval is the one
      whose cumulative slot holds the draw. */
  lemma MarkovDrawSlot(lastInterval: int, c: real, draw: real)
    requires 0.0 <= c <= 1.0
    ensures var w := MarkovWeights(lastInterval, c);
            var idx := MarkovChoice(lastInterval, c, draw);
            forall k :: 0 < k < 5 ==> (PrefixSum(w, k) < draw <==> k <= idx)
  {
    BlendIsDistribution(lastInterval, c);
    var w := MarkovWeights(lastInterval, c);
    assert ScaledDraw(draw, w) == draw;
    SelectedInterval(w, draw);
  }

  /** `euclideanRhythm(step, pulses, steps)`: `(step * pulses) % steps <
      pulses` with JavaScript's remainder; for `steps == 0` the remainder is
      NaN and the comparison is false. */
  function EuclideanRhythm(step: int, pulses: int, steps: int): (on: bool)
    ensures pulses == 0 ==> !on
    ensures step >= 0 && 0 < steps <= pulses ==> on
  {
    steps != 0 && JsRem(step * pulses, steps) < pulses
  }

  /** How many of the steps `0 .. n - 1` the rhythm sounds on. */
  function GateCount(pulses: int, steps: int, n: nat): nat
  {
    if n == 0 then 0
    else GateCount(pulses, steps, n - 1) + (if EuclideanRhythm(n - 1, pulses, steps) then 1 else 0)
  }

  /** Step `n` sounds exactly when `floor(n * p / s)` goes up by one there. */
  lemma EuclideanGateStep(p: int, s: int, n: nat)
    requires 0 < p <= s && n >= 1
    ensures (n * p) / s == ((n - 1) * p) / s + (if EuclideanRhythm(n, p, s) then 1 else 0)
  {
    var a := (n - 1) * p;
    var q, r := a / s, a % s;
    assert n * p == a + p;
    if r + p < s {
      DivModUnique(n * p, s, q, r + p);
    } else {
      DivModUnique(n * p, s, q + 1, r + p - s);
    }
  }

  lemma {:induction false} GateCountFormula(p: int, s: int, n: nat)
    requires 0 < p <= s && n >= 1
    ensures GateCount(p, s, n) == ((n - 1) * p) / s + 1
  {
    if n == 1 {
      assert GateCount(p, s, 0) == 0;
      assert EuclideanRhythm(0, p, s);
    } else {
      GateCountFormula(p, s, n - 1);
      EuclideanGateStep(p, s, n - 1);
    }
  }

  lemma {:induction false} GateCountSilent(s: int, n: nat)
    ensures GateCount(0, s, n) == 0
  {
    if n > 0 {
      GateCountSilent(s, n - 1);
    }
  }

  /** With `0 <= p <= s` the rhythm sounds on exactly `p` of the `s` steps
      of a cycle. */
  lemma EuclideanPulseCount(p: int, s: int)
    requires 0 <= p <= s && s > 0
    ensures GateCount(p, s, s) == p
  {
    if p == 0 {
      GateCountSilent(s, s);
    } else {
      GateCountFormula(p, s, s);
      assert (s - 1) * p == s * (p - 1) + (s - p);
      DivModUnique((s - 1) * p, s, p - 1, s - p);
    }
  }

  /** The bass's 3-in-8 pattern over a bar of eight beats. */
  lemma BassRhythm()
    ensures seq(8, k => EuclideanRhythm(k, 3, 8)) == [true, false, false, true, false, false, true, false]
    ensures GateCount(3, 8, 8) == 3
  {
    EuclideanPulseCount(3, 8);
  }

  /** The chord offsets the pad and bass follow, one per bar of four beats. */
  const SectionOffsets: seq<int> := [0, -3, -1, 2]

  /** `sectionOffsets[Math.floor(beatCount / 4) % 4]`. */
  function SectionOffset(beatCount: nat): (off: int)
    ensures -3 <= off <= 2
  {
    SectionOffsets[(beatCount / 4) % 4]
  }

  /** The offset is fixed within a bar, bar `b` takes entry `b % 4`, so the
      progression repeats every 16 beats (four bars). */
  lemma SectionOffsetCycle(bar: nat, beat: nat)
    requires beat < 4
    ensures SectionOffset(4 * bar + beat) == SectionOffsets[bar % 4]
    ensures SectionOffset(4 * bar + beat + 16) == SectionOffset(4 * bar + beat)
  {
    DivModUnique(4 * bar + beat, 4, bar, beat);
    DivModUnique(4 * bar + beat + 16, 4, bar + 4, beat);
    DivModUnique(bar + 4, 4, (bar / 4) + 1, bar % 4);
  }

  /** `(degree + 2 + sectionOffset + 5) % 5`: a third above the melody,
      moved by the section offset. */
  function PadDegree(degree: int, offset: int): (d: int)
    ensures 0 <= degree < 5 && -3 <= offset <= 2 ==> 0 <= d < 5 && d == (degree + 2 + offset) % 5
  {
    JsRem(degree + 2 + offset + 5, 5)
  }

  /** `(degree + sectionOffset + 5) % 5`. */
  function BassDegree(degree: int, offset: int): (d: int)
    ensures 0 <= degree < 5 && -3 <= offset <= 2 ==> 0 <= d < 5 && d == (degree + offset) % 5
  {
    JsRem(degree + offset + 5, 5)
  }

  /** The cadence beat ends each 16-beat phrase section. */
  predicate IsCadence(beatCount: nat)
  {
    beatCount % 16 == 15
  }

  /** The phrase end closes each 32 beats. */
  predicate IsPhraseEnd(beatCount: nat)
  {
    beatCount % 32 == 31
  }

  /** `0.15 + 0.25 * complexity`: the chance the melody rests on a beat. */
  function RestProbability(c: real): (p: real)
    ensures 0.0 <= c <= 1.0 ==> 0.15 <= p <= 0.4
  {
    0.15 + 0.25 * c
  }

  /** The `Math.random()` values one beat may consume, in program order:
      the cadence test, the choice between the stable degrees, the Markov
      draw, the rest test and the octave lift. A draw the beat does not
      reach is ignored. */
  datatype TickDraws = TickDraws(cadence: real, stable: real, markov: real, rest: real, lift: real)

  /** The melody note, if the beat does not rest: octave 1, lifted to octave
      2 with a 0.3 chance at a phrase end. */
  function MelodyPart(p: EngineParams, degree: int, beatCount: nat, d: TickDraws, t0: real, beatSec: real): seq<Voice>
  {
    if d.rest > RestProbability(p.complexity) then
      var octave := if IsPhraseEnd(beatCount) && d.lift < 0.3 then 2 else 1;
      [MelodyVoice(p.rootHz, Semitone(p.scale, degree, octave), t0, beatSec)]
    else []
  }

  /** The bass note, on the beats the 3-in-8 rhythm selects. */
  function BassPart(p: EngineParams, degree: int, beatCount: nat, t0: real, beatSec: real): seq<Voice>
  {
    if EuclideanRhythm(beatCount % 8, 3, 8) then
      [BassVoice(p.rootHz, Semitone(p.scale, BassDegree(degree, SectionOffset(beatCount)), -1), t0, beatSec)]
    else []
  }

  /** Everything one beat plays, from the degree after the melodic step and
      the beat count before the increment, starting at `t0`. */
  function TickVoices(p: EngineParams, degree: int, beatCount: nat, d: TickDraws, t0: real): (vs: seq<Voice>)
    requires p.bpm != 0.0
    ensures 2 <= |vs| <= 4
  {
    var beatSec := BeatSeconds(p.bpm);
    MelodyPart(p, degree, beatCount, d, t0, beatSec)
      + PadVoices(p.rootHz, Semitone(p.scale, PadDegree(degree, SectionOffset(beatCount)), 2), t0, beatSec)
      + BassPart(p, degree, beatCount, t0, beatSec)
  }

  /** What a beat plays: two to four voices, all starting at `t0` on the
      engine's root and well shaped for `playSine`; the melody sounds
      exactly when the rest draw exceeds the rest probability, two octaves
      above the root only at a phrase end; the two pad voices are detuned
      either side of one pitch in the third octave; the bass sounds exactly
      on the rhythm's beats, in the octave below the root, halved. */
  lemma TickVoicesShape(p: EngineParams, degree: int, beatCount: nat, d: TickDraws, t0: real)
    requires p.bpm > 0.0
    ensures var vs := TickVoices(p, degree, beatCount, d, t0);
            var melody := if d.rest > RestProbability(p.complexity) then 1 else 0;
            var bass := if EuclideanRhythm(beatCount % 8, 3, 8) then 1 else 0;
            |vs| == melody + 2 + bass &&
            (forall i :: 0 <= i < |vs| ==> StartsWell(vs[i], p.rootHz, t0)) &&
            (melody == 1 ==> 12 <= vs[0].semitone < 36 && vs[0].vibrato == 1.5 &&
                             (vs[0].semitone >= 24 ==> IsPhraseEnd(beatCount))) &&
            vs[melody].semitone == vs[melody + 1].semitone &&
            24 <= vs[melody].semitone < 36 &&
            vs[melody].factor < 1.0 < vs[melody + 1].factor &&
            (bass == 1 ==> -12 <= vs[melody + 2].semitone < 0 && vs[melody + 2].factor == 0.5)
  {
    var beatSec := BeatSeconds(p.bpm);
    assert beatSec > 0.0;
    var off := SectionOffset(beatCount);
    SemitoneStructure(p.scale, degree, 1);
    SemitoneStructure(p.scale, degree, 2);
    SemitoneStructure(p.scale, PadDegree(degree, off), 2);
    SemitoneStructure(p.scale, BassDegree(degree, off), -1);
  }

  /** `AmbientEngine`. `delayTime` and `feedback` are the values the delay
      and feedback nodes hold; `inputGain` is the fixed 0.3 gain of the bus feeding the delay. */
  class AmbientEngine {
    var running: bool
    var params: EngineParams
    var degree: int
    var schedulerId: Option<int>
    var beatCount: nat
    var lastInterval: int
    var delayTime: real
    var feedback: real
    const inputGain: real

    /** The melodic state stays on the scale and the last interval is one of
        the table's. */
    ghost predicate Valid()
      reads this
    {
      0 <= degree < 5 && -2 <= lastInterval <= 2
    }

    constructor (params: EngineParams)
      ensures Valid()
      ensures this.params == params && !running && schedulerId == None
      ensures degree == 0 && lastInterval == 0 && beatCount == 0
      ensures inputGain == 0.3 && delayTime == 0.45 && feedback == 0.35
    {
      this.params := params;
      running := false;
      schedulerId := None;
      degree := 0;
      lastInterval := 0;
      beatCount := 0;
      inputGain := 0.3;
      delayTime := 0.45;
      feedback := 0.35;
    }

    /** `markovStep`, with its `Math.random()` as `draw`. */
    method MarkovStep(draw: real)
      modifies this`degree, this`lastInterval
      ensures (degree, lastInterval) == MarkovNext(old(degree), old(lastInterval), params.complexity, draw)
      ensures -2 <= lastInterval <= 2
      ensures 0 <= old(degree) < 5 ==> 0 <= degree < 5
    {
      var row := TransitionRow(lastInterval);
      var weights := Blend(row, params.complexity);
      var sum := Sum(weights);
      var r := draw * sum;
      assert r == ScaledDraw(draw, weights);
      var idx := SelectIndex(weights, r);
      var interval := Intervals[idx];
      lastInterval := interval;
      degree := JsRem(degree + interval + 5, 5);
    }

    /** One `tick`: the cadence override or a Markov step, the voices of
        the beat, the beat count and the timer handle of the next beat. */
    method Tick(draws: TickDraws, now: real, timerId: int) returns (voices: seq<Voice>)
      requires params.bpm != 0.0
      modifies this`degree, this`lastInterval, this`beatCount, this`schedulerId
      ensures IsCadence(old(beatCount)) && draws.cadence < 0.75 ==>
                degree == (if draws.stable < 0.5 then 0 else 2) && lastInterval == 0
      ensures !(IsCadence(old(beatCount)) && draws.cadence < 0.75) ==>
                (degree, lastInterval) == MarkovNext(old(degree), old(lastInterval), params.complexity, draws.markov)
      ensures old(Valid()) ==> Valid()
      ensures -2 <= lastInterval <= 2
      ensures voices == TickVoices(params, degree, old(beatCount), draws, now)
      ensures beatCount == old(beatCount) + 1
      ensures schedulerId == Some(timerId)
    {
      if IsCadence(beatCount) && draws.cadence < 0.75 {
        degree := if draws.stable < 0.5 then 0 else 2;
        lastInterval := 0;
      } else {
        MarkovStep(draws.markov);
      }
      assert old(Valid()) ==> Valid();
      voices := TickVoices(params, degree, beatCount, draws, now);
      beatCount := beatCount + 1;
      schedulerId := Some(timerId);
    }

    /** `setMix`: stores the mix and retunes the delay. */
    method SetMix(mix: real)
      modifies this`params, this`delayTime, this`feedback
      ensures params == old(params).(mix := mix)
      ensures delayTime == DelayTimeFor(mix) && feedback == FeedbackFor(mix)
    {
      params := params.(mix := mix);
      delayTime := DelayTimeFor(mix);
      feedback := FeedbackFor(mix);
    }

    method SetScale(scale: Scale)
      modifies this`params
      ensures params == old(params).(scale := scale)
    {
      params := params.(scale := scale);
    }

    method SetRootHz(rootHz: real)
      modifies this`params
      ensures params == old(params).(rootHz := rootHz)
    {
      params := params.(rootHz := rootHz);
    }

    method SetBpm(bpm: real)
      modifies this`params
      ensures params == old(params).(bpm := bpm)
    {
      params := params.(bpm := bpm);
    }

    method SetComplexity(complexity: real)
      modifies this`params
      ensures params == old(params).(complexity := complexity)
    {
      params := params.(complexity := complexity);
    }

    /** `start`: nothing while running; otherwise the stored mix is applied,
        the engine runs and the first beat is played at once. */
    method Start(draws: TickDraws, now: real, timerId: int) returns (voices: seq<Voice>)
      requires running || params.bpm != 0.0
      modifies this`running, this`params, this`delayTime, this`feedback,
               this`degree, this`lastInterval, this`beatCount, this`schedulerId
      ensures old(running) ==> unchanged(this) && voices == []
      ensures !old(running) ==>
                running && params == old(params) &&
                delayTime == DelayTimeFor(params.mix) && feedback == FeedbackFor(params.mix) &&
                beatCount == old(beatCount) + 1 && schedulerId == Some(timerId) &&
                voices == TickVoices(params, degree, old(beatCount), draws, now)
      ensures !old(running) && IsCadence(old(beatCount)) && draws.cadence < 0.75 ==>
                degree == (if draws.stable < 0.5 then 0 else 2) && lastInterval == 0
      ensures !old(running) && !(IsCadence(old(beatCount)) && draws.cadence < 0.75) ==>
                (degree, lastInterval) == MarkovNext(old(degree), old(lastInterval), params.complexity, draws.markov)
      ensures old(Valid()) ==> Valid()
    {
      if running {
        return [];
      }
      SetMix(params.mix);
      running := true;
      voices := Tick(draws, now, timerId);
    }

    /** `stop`: nothing while stopped; otherwise the pending beat is
        cancelled and the engine stops. */
    method Stop()
      modifies this`running, this`schedulerId
      ensures !running
      ensures old(running) ==> schedulerId == None
      ensures !old(running) ==> schedulerId == old(schedulerId)
    {
      if !running {
        return;
      }
      schedulerId := None;
      running := false;
    }
  }

  /** A mix set while running survives a stop and restart, because `setMix`
      stores it in the parameters that `start` re-applies. */
  method RestartKeepsMix(e: AmbientEngine, mix: real, draws: TickDraws, now: real, timerId: int)
    requires e.running && e.params.bpm != 0.0
    modifies e
    ensures e.running && e.params.mix == mix
    ensures e.delayTime == DelayTimeFor(mix) && e.feedback == FeedbackFor(mix)
  {
    e.SetMix(mix);
    e.Stop();
    var _ := e.Start(draws, now, timerId);
  }
}
