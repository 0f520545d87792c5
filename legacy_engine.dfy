/** The earlier ambient engine of src/Audio/engine.ts. Its beat is a plain
    random walk on the scale degrees with exponentially centre-weighted
    jumps; it always plays the melody and the pad, and plays the bass with a
    probability that falls as the complexity rises. `Math.random()` draws,
    the two `Math.exp` weights and the timer handle are parameters. */
module LegacyEngines {
  import opened Options
  import opened JsSemantics
  import opened Pentatonic
  import opened Voices
  import opened Selection
  import opened Fx

  /** The jumps a random-walk step can take, in weight order. */
  const Jumps: seq<int> := [-2, -1, 0, 1, 2]

  /** `jumps.map(j => Math.exp(-3 * |j| * (1 - c)))`. The exponential is
      left abstract: `near` stands for the weight of a one-step jump,
      `exp(-3 (1 - c))`, and `far` for that of a two-step jump,
      `exp(-6 (1 - c))`; staying put has weight `exp(0) = 1`. */
  function WalkWeights(near: real, far: real): (w: seq<real>)
    ensures |w| == 5
  {
    [far, near, 1.0, near, far]
  }

  /** The index of the jump the cumulative selection picks. */
  function WalkChoice(near: real, far: real, draw: real): (idx: nat)
    ensures idx < 5
  {
    var w := WalkWeights(near, far);
    FirstReaching(w, ScaledDraw(draw, w))
  }

  /** The jump `randomWalkStep` takes. */
  function WalkJump(near: real, far: real, draw: real): (j: int)
    ensures -2 <= j <= 2
  {
    Jumps[WalkChoice(near, far, draw)]
  }

  /** The degree after `randomWalkStep`: `(degree + jump + 5) % 5`, which
      from any degree not below -3 is the residue of `degree + jump`. */
  function RandomWalkNext(degree: int, near: real, far: real, draw: real): (d: int)
    ensures degree >= -3 ==> d == (degree + WalkJump(near, far, draw)) % 5
    ensures 0 <= degree < 5 ==> 0 <= d < 5
  {
    var jump := WalkJump(near, far, draw);
    DivModUnique(degree + jump + 5, 5, (degree + jump) / 5 + 1, (degree + jump) % 5);
    JsRem(degree + jump + 5, 5)
  }

  /** The weights are mirror-symmetric around staying put, so a jump up and
      the same jump down are equally likely; with positive weights the draw
      lands in the slot its scaled value falls into; at full complexity
      (`near == far == 1`) every jump has the same weight. */
  lemma WalkSelection(near: real, far: real, draw: real)
    requires near > 0.0 && far > 0.0
    ensures var w := WalkWeights(near, far);
            (forall i :: 0 <= i < 5 ==> w[i] == w[4 - i] && w[i] > 0.0) &&
            var idx := WalkChoice(near, far, draw);
            forall k :: 0 < k < 5 ==> (PrefixSum(w, k) < ScaledDraw(draw, w) <==> k <= idx)
    ensures near == 1.0 && far == 1.0 ==> WalkWeights(near, far) == [1.0, 1.0, 1.0, 1.0, 1.0]
  {
    var w := WalkWeights(near, far);
    SelectedInterval(w, ScaledDraw(draw, w));
  }

  /** The `Math.random()` values one beat consumes: the walk draw and the
      bass test. */
  datatype LegacyDraws = LegacyDraws(walk: real, bass: real)

  /** `0.8 - 0.5 * complexity`: the chance the bass plays on a beat. */
  function BassProbability(c: real): (p: real)
    ensures 0.0 <= c <= 1.0 ==> 0.3 <= p <= 0.8
  {
    0.8 - 0.5 * c
  }

  /** Everything one beat plays, from the degree after the walk step,
      starting at `t0`. */
  function LegacyTickVoices(p: EngineParams, degree: int, bassDraw: real, t0: real): (vs: seq<Voice>)
    requires p.bpm != 0.0
    ensures 3 <= |vs| <= 4
  {
    var beatSec := BeatSeconds(p.bpm);
    [MelodyVoice(p.rootHz, Semitone(p.scale, degree, 1), t0, beatSec)]
      + PadVoices(p.rootHz, Semitone(p.scale, JsRem(degree + 2, 5), 2), t0, beatSec)
      + (if bassDraw < BassProbability(p.complexity)
         then [BassVoice(p.rootHz, Semitone(p.scale, degree, -1), t0, beatSec)]
         else [])
  }

  /** The parts of a beat as a display: the melody, the two pad voices and
      the optional bass. */
  lemma LegacyTickParts(p: EngineParams, degree: int, bassDraw: real, t0: real)
    requires p.bpm > 0.0
    ensures var beatSec := BeatSeconds(p.bpm);
            var pads := PadVoices(p.rootHz, Semitone(p.scale, JsRem(degree + 2, 5), 2), t0, beatSec);
            var bass := BassVoice(p.rootHz, Semitone(p.scale, degree, -1), t0, beatSec);
            LegacyTickVoices(p, degree, bassDraw, t0)
              == [MelodyVoice(p.rootHz, Semitone(p.scale, degree, 1), t0, beatSec), pads[0], pads[1]]
                 + (if bassDraw < BassProbability(p.complexity) then [bass] else [])
  {
  }

  /** What a beat plays: the melody and the two detuned pad voices every
      time, and the bass exactly when its draw is below the bass
      probability; every voice starts at `t0` and is well shaped. */
  lemma LegacyTickShape(p: EngineParams, degree: int, bassDraw: real, t0: real)
    requires p.bpm > 0.0
    ensures var vs := LegacyTickVoices(p, degree, bassDraw, t0);
            |vs| == (if bassDraw < BassProbability(p.complexity) then 4 else 3) &&
            (forall i :: 0 <= i < |vs| ==> StartsWell(vs[i], p.rootHz, t0)) &&
            vs[0].vibrato == 1.5 && vs[1].factor < 1.0 < vs[2].factor &&
            (|vs| == 4 ==> vs[3].factor == 0.5)
  {
    var beatSec := BeatSeconds(p.bpm);
    LegacyTickParts(p, degree, bassDraw, t0);
    PartsStartWell(p.rootHz, Semitone(p.scale, degree, 1), Semitone(p.scale, JsRem(degree + 2, 5), 2),
                   Semitone(p.scale, degree, -1), t0, beatSec);
  }

  /** The semitone offsets of a beat from a degree on the scale: the melody
      one octave above the root, the pad two octaves up on the degree two
      steps higher, and the bass one octave below the root; the bass
      voice's factor of 0.5 then takes it a second octave down. */
  lemma LegacyTickPitches(p: EngineParams, degree: int, bassDraw: real, t0: real)
    requires p.bpm > 0.0 && 0 <= degree < 5
    ensures var vs := LegacyTickVoices(p, degree, bassDraw, t0);
            vs[0].semitone == ScaleTable(p.scale)[degree] + 12 &&
            vs[1].semitone == vs[2].semitone == ScaleTable(p.scale)[(degree + 2) % 5] + 24 &&
            (|vs| == 4 ==> vs[3].semitone == ScaleTable(p.scale)[degree] - 12)
  {
    var pad := JsRem(degree + 2, 5);
    assert WrapDegree(degree) == degree;
    assert WrapDegree(pad) == pad == (degree + 2) % 5;
    LegacyTickParts(p, degree, bassDraw, t0);
  }

  /** The older `AmbientEngine`; `delayTime` and `feedback` are the values
      the delay and feedback nodes hold; `inputGain` is the fixed 0.3 gain of
      the bus feeding the delay. */
  class LegacyEngine {
    var running: bool
    var params: EngineParams
    var degree: int
    var schedulerId: Option<int>
    var delayTime: real
    var feedback: real
    const inputGain: real

    constructor (params: EngineParams)
      ensures this.params == params && !running && degree == 0 && schedulerId == None
      ensures inputGain == 0.3 && delayTime == 0.45 && feedback == 0.35
    {
      this.params := params;
      running := false;
      degree := 0;
      schedulerId := None;
      inputGain := 0.3;
      delayTime := 0.45;
      feedback := 0.35;
    }

    /** `randomWalkStep`, with the two exponential weights and the draw as
        parameters. */
    method RandomWalkStep(near: real, far: real, draw: real)
      modifies this`degree
      ensures degree == RandomWalkNext(old(degree), near, far, draw)
      ensures 0 <= old(degree) < 5 ==> 0 <= degree < 5
    {
      var weights := WalkWeights(near, far);
      var sum := Sum(weights);
      var r := draw * sum;
      assert r == ScaledDraw(draw, weights);
      var idx := SelectIndex(weights, r);
      degree := JsRem(degree + Jumps[idx] + 5, 5);
    }

    /** One `tick`: a walk step, the beat's voices and the timer handle of
        the next beat. */
    method Tick(draws: LegacyDraws, near: real, far: real, now: real, timerId: int) returns (voices: seq<Voice>)
      requires params.bpm != 0.0
      modifies this`degree, this`schedulerId
      ensures degree == RandomWalkNext(old(degree), near, far, draws.walk)
      ensures 0 <= old(degree) < 5 ==> 0 <= degree < 5
      ensures voices == LegacyTickVoices(params, degree, draws.bass, now)
      ensures schedulerId == Some(timerId)
    {
      RandomWalkStep(near, far, draws.walk);
      voices := LegacyTickVoices(params, degree, draws.bass, now);
      schedulerId := Some(timerId);
    }

    /** `setMix`: retunes the delay but does not record the mix. */
    method SetMix(mix: real)
      modifies this`delayTime, this`feedback
      ensures delayTime == DelayTimeFor(mix) && feedback == FeedbackFor(mix)
    {
      delayTime := DelayTimeFor(mix);
      feedback := FeedbackFor(mix);
    }

    /** `start`: nothing while running; otherwise the mix from the
        parameters is applied, the engine runs and the first beat plays. */
    method Start(draws: LegacyDraws, near: real, far: real, now: real, timerId: int) returns (voices: seq<Voice>)
      requires running || params.bpm != 0.0
      modifies this`running, this`delayTime, this`feedback, this`degree, this`schedulerId
      ensures old(running) ==> unchanged(this) && voices == []
      ensures !old(running) ==>
                running && delayTime == DelayTimeFor(params.mix) && feedback == FeedbackFor(params.mix) &&
                degree == RandomWalkNext(old(degree), near, far, draws.walk) &&
                schedulerId == Some(timerId) && voices == LegacyTickVoices(params, degree, draws.bass, now)
    {
      if running {
        return [];
      }
      SetMix(params.mix);
      running := true;
      voices := Tick(draws, near, far, now, timerId);
    }

    /** `stop`: nothing while stopped; otherwise the pending beat is
        cancelled and the engine stops. */
    method Stop()
      modifies this`running, this`schedulerId
      ensures !running
      ensures old(running) ==> schedulerId == None
      ensures !old(running) ==> schedulerId == old(schedulerId)
    {
      if !running {
        return;
      }
      schedulerId := None;
      running := false;
    }
  }

  /** A mix set while running is lost on a stop and restart: `start`
      re-applies the mix from the parameters, which `setMix` never updated. */
  method RestartRevertsMix(e: LegacyEngine, mix: real, draws: LegacyDraws, near: real, far: real, now: real, timerId: int)
    requires e.running && e.params.bpm != 0.0
    modifies e
    ensures e.running && e.params.mix == old(e.params.mix)
    ensures e.delayTime == DelayTimeFor(old(e.params.mix)) && e.feedback == FeedbackFor(old(e.params.mix))
    ensures mix != old(e.params.mix) ==> e.delayTime != DelayTimeFor(mix)
  {
    e.SetMix(mix);
    e.Stop();
    var _ := e.Start(draws, near, far, now, timerId);
  }
}
