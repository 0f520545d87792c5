/** The cumulative-weight draw both ambient engines use to pick an interval:
    a uniform draw is scaled by the weights' total, and an index walks up
    the weights subtracting each from the scaled draw until what is left is
    no longer positive or the last index is reached. */
module Selection {

  /** `weights.reduce((a, b) => a + b, 0)`, folded from the left. */
  function Sum(w: seq<real>): real
  {
    if w == [] then 0.0 else Sum(w[..|w| - 1]) + w[|w| - 1]
  }

  /** `Math.random() * sum`: a draw in [0, 1) scaled to the weights' total. */
  function ScaledDraw(draw: real, w: seq<real>): real
  {
    draw * Sum(w)
  }

  /** The sum of the first `k` weights. */
  function PrefixSum(w: seq<real>, k: nat): real
    requires k <= |w|
  {
    Sum(w[..k])
  }

  lemma PrefixSumStep(w: seq<real>, k: nat)
    requires k < |w|
    ensures PrefixSum(w, k + 1) == PrefixSum(w, k) + w[k]
  {
    assert w[..k + 1][..k] == w[..k];
  }

  /** The index the loop stops at, searching from `i`: the first index below
      the last whose prefix sum reaches `r`, or the last index. */
  function FirstReachingFrom(w: seq<real>, r: real, i: nat): (idx: nat)
    requires i < |w|
    ensures i <= idx < |w|
    ensures forall k :: i < k <= idx ==> PrefixSum(w, k) < r
    ensures idx < |w| - 1 ==> PrefixSum(w, idx + 1) >= r
    decreases |w| - i
  {
    if i == |w| - 1 || PrefixSum(w, i + 1) >= r then i
    else FirstReachingFrom(w, r, i + 1)
  }

  function FirstReaching(w: seq<real>, r: real): (idx: nat)
    requires |w| >= 1
    ensures idx < |w|
  {
    FirstReachingFrom(w, r, 0)
  }

  /** The selection loop, as written: `r` is decremented by each weight in
      turn and the loop stops once it is no longer positive or only the last
      index is left. */
  method SelectIndex(w: seq<real>, r: real) returns (idx: nat)
    requires |w| >= 1
    ensures idx < |w|
    ensures forall k :: 0 < k <= idx ==> PrefixSum(w, k) < r
    ensures idx < |w| - 1 ==> PrefixSum(w, idx + 1) >= r
    ensures idx == FirstReaching(w, r)
  {
    var rest := r;
    idx := 0;
    while idx < |w| - 1
      invariant idx < |w|
      invariant rest == r - PrefixSum(w, idx)
      invariant forall k :: 0 < k <= idx ==> PrefixSum(w, k) < r
      invariant FirstReachingFrom(w, r, idx) == FirstReaching(w, r)
    {
      PrefixSumStep(w, idx);
      rest := rest - w[idx];
      if !(rest > 0.0) {
        break;
      }
      idx := idx + 1;
    }
  }

  /** Prefix sums of non-negative weights never decrease. */
  lemma {:induction false} PrefixMonotone(w: seq<real>, a: nat, b: nat)
    requires a <= b <= |w|
    requires forall i :: 0 <= i < |w| ==> w[i] >= 0.0
    ensures PrefixSum(w, a) <= PrefixSum(w, b)
    decreases b - a
  {
    if a < b {
      PrefixSumStep(w, a);
      PrefixMonotone(w, a + 1, b);
    }
  }

  /** With non-negative weights the draw lands in the interval whose
      cumulative bounds straddle `r`: the chosen index counts exactly the
      proper prefixes that stay below `r`. */
  lemma SelectedInterval(w: seq<real>, r: real)
    requires |w| >= 1
    requires forall i :: 0 <= i < |w| ==> w[i] >= 0.0
    ensures var idx := FirstReaching(w, r);
            forall k :: 0 < k < |w| ==> (PrefixSum(w, k) < r <==> k <= idx)
  {
    var idx := FirstReaching(w, r);
    forall k | 0 < k < |w|
      ensures PrefixSum(w, k) < r <==> k <= idx
    {
      if k > idx {
        PrefixMonotone(w, idx + 1, k);
      }
    }
  }
}
