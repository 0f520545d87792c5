/** The effect helpers of src/audio/fx.ts that carry logic: the linear
    mix-to-parameter mappings of the feedback delay and the master low-pass
    filter, and the bitcrusher's sample-and-hold block loop. */
module Fx {
  import opened JsSemantics

  /** Delay time in seconds for a mix: 0.3 s at mix 0, 0.7 s at mix 1. */
  function DelayTimeFor(mix: real): (t: real)
    ensures 0.0 <= mix <= 1.0 ==> 0.3 <= t <= 0.7
    ensures (t - 0.3) / 0.4 == mix
  {
    0.3 + mix * 0.4
  }

  /** Feedback gain for a mix: 0.2 at mix 0, 0.7 at mix 1. */
  function FeedbackFor(mix: real): (g: real)
    ensures 0.0 <= mix <= 1.0 ==> 0.2 <= g <= 0.7
    ensures (g - 0.2) / 0.5 == mix
  {
    0.2 + mix * 0.5
  }

  /** The four values `createDelay` gives its nodes. */
  datatype DelaySettings = DelaySettings(delayTime: real, feedback: real, wet: real, dry: real)

  /** `createDelay(ctx, mix = 0.5)`: the wet path follows the mix, the dry
      path is fixed at unity. */
  function CreateDelay(mix: real := 0.5): (d: DelaySettings)
    ensures d.wet == mix && d.dry == 1.0
    ensures d.delayTime == DelayTimeFor(mix) && d.feedback == FeedbackFor(mix)
  {
    DelaySettings(DelayTimeFor(mix), FeedbackFor(mix), mix, 1.0)
  }

  /** The `setMix` closure returned by `createDelay`: it re-applies the same
      mappings to delay, feedback and wet gain at the current time and
      leaves the dry gain alone. */
  function DelaySetMix(d: DelaySettings, mix: real): (d': DelaySettings)
    ensures d'.dry == d.dry
  {
    d.(delayTime := DelayTimeFor(mix), feedback := FeedbackFor(mix), wet := mix)
  }

  /** Changing the mix later lands on exactly the settings a delay created
      with that mix starts from, and the last mix set wins. */
  lemma DelaySetMixAgrees(mix: real, first: real, second: real)
    ensures DelaySetMix(CreateDelay(first), mix) == CreateDelay(mix)
    ensures DelaySetMix(DelaySetMix(CreateDelay(), first), second) == CreateDelay(second)
  {
  }

  const DefaultCutoff: real := 7000.0
  const FilterQ: real := 0.7
  /** How long the master filter takes to glide to a new cutoff. */
  const CutoffGlide: real := 0.5

  /** Master-filter cutoff in hertz for a mix: 5 kHz at mix 0, 9 kHz at 1. */
  function CutoffFor(mix: real): (f: real)
    ensures 0.0 <= mix <= 1.0 ==> 5000.0 <= f <= 9000.0
    ensures (f - 5000.0) / 4000.0 == mix
  {
    5000.0 + mix * 4000.0
  }

  /** The two automation events `createMasterFilter`'s `setMix` issues: hold
      the frequency the filter has now, then glide linearly to the new
      cutoff. */
  datatype CutoffRamp = CutoffRamp(holdValue: real, holdAt: real, target: real, reachedAt: real)

  function MasterFilterSetMix(current: real, mix: real, now: real): (r: CutoffRamp)
    ensures r.holdAt == now && r.holdValue == current
    ensures r.reachedAt == now + CutoffGlide && r.holdAt < r.reachedAt
    ensures 0.0 <= mix <= 1.0 ==> 5000.0 <= r.target <= 9000.0
  {
    CutoffRamp(current, now, CutoffFor(mix), now + CutoffGlide)
  }

  /** The filter's initial cutoff is the one a mix of one half maps to, and
      re-applying the same mix from the cutoff it reached is a flat glide. */
  lemma DefaultCutoffIsMidMix(mix: real, now: real)
    ensures CutoffFor(0.5) == DefaultCutoff
    ensures var r := MasterFilterSetMix(CutoffFor(mix), mix, now); r.holdValue == r.target
  {
  }

  /** The script processor's block size. */
  const BufferSize: nat := 256

  /** The hold counter at block index `i` when it entered the block at
      `c0`. */
  function CounterAt(c0: int, h: int, i: int): int
    requires h >= 1
  {
    (c0 + i) % h
  }

  /** Index of the sample held at block index `i`: the last reset at or
      before `i` lies `CounterAt(c0, h, i)` steps back. A negative index
      means no reset has happened yet in this block. */
  function HeldIndex(c0: int, h: int, i: int): int
    requires h >= 1
  {
    i - CounterAt(c0, h, i)
  }

  /** What the bitcrusher outputs at block index `i`. */
  function HeldSample(input: seq<real>, c0: int, last: real, h: int, i: int): real
    requires h >= 1 && 0 <= i < |input|
  {
    var j := HeldIndex(c0, h, i);
    if j >= 0 then input[j] else last
  }

  /** `HeldIndex` is the most recent index at or before `i` where the
      counter is 0, so that is where the held sample was last refreshed. */
  lemma HeldIndexIsLatestReset(c0: int, h: int, i: int)
    requires h >= 1 && c0 >= 0 && i >= 0
    ensures HeldIndex(c0, h, i) <= i
    ensures CounterAt(c0, h, HeldIndex(c0, h, i)) == 0
    ensures forall k :: HeldIndex(c0, h, i) < k <= i ==> CounterAt(c0, h, k) != 0
  {
    var m, q := CounterAt(c0, h, i), (c0 + i) / h;
    assert c0 + i == h * q + m;
    var a := c0 + HeldIndex(c0, h, i);
    DivModUnique(a, h, q, 0);
    forall k | HeldIndex(c0, h, i) < k <= i
      ensures CounterAt(c0, h, k) != 0
    {
      var b, r := c0 + k, m - (i - k);
      DivModUnique(b, h, q, r);
    }
  }

  /** The counter steps forward by one modulo `h`. */
  lemma CounterStep(c0: int, h: int, i: int)
    requires h >= 1
    ensures CounterAt(c0, h, i + 1) == (CounterAt(c0, h, i) + 1) % h
  {
    ModSucc(c0 + i, h);
  }

  /** Each step either refreshes the held sample from the input (counter at
      0) or repeats the previous step's output; before the first step that
      is the sample carried into the block. */
  lemma HeldSampleStep(input: seq<real>, c0: int, last: real, h: int, i: int)
    requires h >= 1 && 0 <= i < |input|
    ensures HeldSample(input, c0, last, h, i) ==
              if CounterAt(c0, h, i) == 0 then input[i]
              else if i == 0 then last
              else HeldSample(input, c0, last, h, i - 1)
  {
    var m := CounterAt(c0, h, i);
    if i > 0 && m != 0 {
      ModSucc(c0 + (i - 1), h);
      assert CounterAt(c0, h, i - 1) == m - 1;
    }
  }

  /** From a fresh counter, sample `i` repeats the input at the start of its
      group of `h`. */
  lemma FreshBlock(input: seq<real>, last: real, h: int, i: int)
    requires h >= 1 && 0 <= i < |input|
    ensures HeldSample(input, 0, last, h, i) == input[i - i % h]
  {
  }

  /** The bitcrusher's state, closed over by `onaudioprocess`. */
  class Bitcrusher {
    const holdSamples: int
    var holdCounter: int
    var lastSample: real

    ghost predicate Valid()
      reads this
    {
      holdSamples >= 1 && 0 <= holdCounter < holdSamples
    }

    /** `createBitcrusher(ctx, holdSamples = 3)`. */
    constructor (holdSamples: int := 3)
      requires holdSamples >= 1
      ensures Valid()
      ensures this.holdSamples == holdSamples && holdCounter == 0 && lastSample == 0.0
    {
      this.holdSamples := holdSamples;
      holdCounter := 0;
      lastSample := 0.0;
    }

    /** One `onaudioprocess` call over a block of `BufferSize` samples. Each
        output sample repeats the input sample at the latest counter reset,
        or the sample carried over from the previous block when there has
        been none yet; the counter carries on across blocks. The output may
        be the input buffer itself. */
    method Process(input: array<real>, output: array<real>)
      requires Valid()
      requires input.Length == BufferSize && output.Length == BufferSize
      modifies this`holdCounter, this`lastSample, output
      ensures Valid()
      ensures holdCounter == (old(holdCounter) + BufferSize) % holdSamples
      ensures forall i :: 0 <= i < BufferSize ==>
                output[i] == HeldSample(old(input[..]), old(holdCounter), old(lastSample), holdSamples, i)
      ensures lastSample == output[BufferSize - 1]
    {
      ghost var src := input[..];
      ghost var c0, last0 := holdCounter, lastSample;
      var i := 0;
      while i < BufferSize
        invariant 0 <= i <= BufferSize
        invariant Valid() && holdCounter == CounterAt(c0, holdSamples, i)
        invariant forall k :: i <= k < BufferSize ==> input[k] == src[k]
        invariant forall k :: 0 <= k < i ==> output[k] == HeldSample(src, c0, last0, holdSamples, k)
        invariant i == 0 ==> lastSample == last0
        invariant i > 0 ==> lastSample == output[i - 1]
      {
        HeldSampleStep(src, c0, last0, holdSamples, i);
        if holdCounter == 0 {
          lastSample := input[i];
        }
        output[i] := lastSample;
        CounterStep(c0, holdSamples, i);
        holdCounter := (holdCounter + 1) % holdSamples;
        i := i + 1;
      }
    }
  }
}
