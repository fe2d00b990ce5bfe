/**
 * Real-number helpers shared by the feeds, the tracker and the backtest.
 *
 * The source calls math.log, math.sqrt and math.exp. They are not
 * definable here, so every member that needs them takes a `Transcendental`
 * record of three functions, and `Sound` states the only facts the proofs use.
 */
module RealMath {

  datatype Transcendental = Transcendental(log: real -> real, sqrt: real -> real, exp: real -> real)

  /** The facts about log, sqrt and exp that the model relies on. */
  ghost predicate Sound(t: Transcendental)
  {
    && t.exp(0.0) == 1.0
    && t.log(1.0) == 0.0
    && t.sqrt(0.0) == 0.0
    && (forall x :: 0.0 <= x ==> 0.0 <= t.sqrt(x))
  }

  function Abs(x: real): (r: real)
    ensures 0.0 <= r
    ensures r == x || r == -x
  {
    if x < 0.0 then -x else x
  }

  function Max(a: real, b: real): (r: real)
    ensures a <= r && b <= r
    ensures r == a || r == b
  {
    if a < b then b else a
  }

  function Min(a: real, b: real): (r: real)
    ensures r <= a && r <= b
    ensures r == a || r == b
  {
    if b < a then b else a
  }

  function Square(x: real): (r: real)
    ensures 0.0 <= r
  {
    if x < 0.0 then (-x) * (-x) else x * x
  }

  /** Python's `sum` over a list of floats. */
  function Sum(s: seq<real>): real
  {
    if s == [] then 0.0 else Sum(s[..|s| - 1]) + s[|s| - 1]
  }

  lemma {:induction false} SumNonNegative(s: seq<real>)
    requires forall i :: 0 <= i < |s| ==> 0.0 <= s[i]
    ensures 0.0 <= Sum(s)
  {
    if s != [] {
      SumNonNegative(s[..|s| - 1]);
    }
  }

  /** Python's `min` over a non-empty list. */
  function Minimum(s: seq<real>): (m: real)
    requires s != []
    ensures m in s
    ensures forall i :: 0 <= i < |s| ==> m <= s[i]
  {
    if |s| == 1 then s[0] else Min(Minimum(s[..|s| - 1]), s[|s| - 1])
  }

  /** Python's `max` over a non-empty list. */
  function Maximum(s: seq<real>): (m: real)
    requires s != []
    ensures m in s
    ensures forall i :: 0 <= i < |s| ==> s[i] <= m
  {
    if |s| == 1 then s[0] else Max(Maximum(s[..|s| - 1]), s[|s| - 1])
  }

  /** A sum of terms each at most `b` is at most `|s| * b`. */
  lemma {:induction false} SumAtMost(s: seq<real>, b: real)
    requires forall i :: 0 <= i < |s| ==> s[i] <= b
    ensures Sum(s) <= |s| as real * b
  {
    if s != [] {
      SumAtMost(s[..|s| - 1], b);
    }
  }

  /** Python's `int(x)` on a float: truncation toward zero. */
  function Trunc(x: real): (r: int)
    ensures 0.0 <= x ==> r as real <= x < r as real + 1.0
    ensures x < 0.0 ==> r as real - 1.0 < x <= r as real
  {
    if 0.0 <= x then x.Floor else -((-x).Floor)
  }
}
