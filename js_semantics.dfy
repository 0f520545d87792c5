/** The few places where JavaScript's arithmetic and truthiness differ from
    Dafny's, written out so that the rest of the model can use them exactly
    where the program relies on them. */
module JsSemantics {
  import opened Options

  /** JavaScript's `a % b`: the remainder truncates toward zero, so its sign
      follows the dividend (Dafny's `%` is Euclidean and never negative). */
  function JsRem(a: int, b: int): (r: int)
    requires b != 0
    ensures a >= 0 ==> 0 <= r && r == a % b
    ensures a < 0 ==> r <= 0 && r == -((-a) % b)
    ensures -(if b < 0 then -b else b) < r < (if b < 0 then -b else b)
  {
    if a >= 0 then a % b else -((-a) % b)
  }

  /** `Math.round`: halves round up, toward positive infinity. */
  function Round(x: real): (m: int)
    ensures x - 0.5 < m as real <= x + 0.5
  {
    (x + 0.5).Floor
  }

  /** `s || d` for an optional string: `undefined` and the empty string are
      both falsy, so both give the default. */
  function OrDefault(s: Option<string>, d: string): (r: string)
    ensures r == d || (s.Some? && r == s.value)
    ensures r == d <==> s.None? || s.value == "" || s.value == d
  {
    if s.Some? && s.value != "" then s.value else d
  }

  /** Division and remainder by a positive divisor are determined by any
      decomposition `a == b * q + r` with `0 <= r < b`. */
  lemma DivModUnique(a: int, b: int, q: int, r: int)
    requires b > 0 && 0 <= r < b && a == b * q + r
    ensures a / b == q && a % b == r
  {
    var q', r' := a / b, a % b;
    var d := q' - q;
    assert b * q' == b * q + b * d;
    assert b * d == r - r';
    if d > 0 {
      MulAtLeast(b, d);
    } else if d < 0 {
      MulAtLeast(b, -d);
    }
  }

  lemma {:induction false} MulAtLeast(b: int, k: int)
    requires b > 0 && k >= 1
    ensures b * k >= b
  {
    if k > 1 {
      MulAtLeast(b, k - 1);
      assert b * k == b * (k - 1) + b;
    }
  }

  /** Counting modulo `b`: the next remainder is one more, or wraps to 0. */
  lemma {:induction false} ModSucc(a: int, b: int)
    requires b > 0
    ensures (a + 1) % b == if a % b == b - 1 then 0 else a % b + 1
  {
    var q, r := a / b, a % b;
    assert a == b * q + r;
    if r == b - 1 {
      DivModUnique(a + 1, b, q + 1, 0);
    } else {
      DivModUnique(a + 1, b, q, r + 1);
    }
  }
}
