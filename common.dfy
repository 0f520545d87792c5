/** src/utils/common.ts: the shared `clamp` helper. (`generateId` reads the
    clock and a random source; ids are passed in as opaque fresh strings.) */
module Common {

  function Max(a: real, b: real): real { if a >= b then a else b }
  function Min(a: real, b: real): real { if a <= b then a else b }

  /** `Math.max(min, Math.min(max, value))`. */
  function Clamp(value: real, min: real, max: real): (r: real)
    ensures min <= max ==> min <= r <= max
    ensures min <= value <= max ==> r == value
    ensures min > max ==> r == min
    ensures min <= max && value < min ==> r == min
    ensures min <= max && value > max ==> r == max
  {
    Max(min, Min(max, value))
  }

  /** Clamping twice is clamping once, including when the bounds are crossed. */
  lemma ClampIdempotent(value: real, min: real, max: real)
    ensures Clamp(Clamp(value, min, max), min, max) == Clamp(value, min, max)
  {
  }

  /** Clamping is monotone in the value. */
  lemma ClampMonotone(v1: real, v2: real, min: real, max: real)
    requires v1 <= v2
    ensures Clamp(v1, min, max) <= Clamp(v2, min, max)
  {
  }
}
