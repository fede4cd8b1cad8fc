/** The parts of JavaScript's number semantics that the core relies on,
    over unbounded reals: `Math.PI`, `Math.abs`, `Math.floor` and the
    truncated remainder operator `%`. */
module JsMath {

  /** `Math.PI`, the double closest to pi. Most proofs use only 3 < PI < 4;
      `Rotations.DistWrapsExample` depends on the value itself, since its
      interval (-0.2, 0) needs PI to lie roughly between 3.05 and 3.15. */
  const PI: real := 3.141592653589793
  const TWO_PI: real := 2.0 * PI

  /** A small Option type for JavaScript's `null`/absent values. */
  datatype Option<+T> = None | Some(value: T)

  function Abs(x: real): (r: real)
    ensures r >= 0.0
    ensures r == x || r == -x
  {
    if x < 0.0 then -x else x
  }

  function Max(a: real, b: real): (r: real)
    ensures r >= a && r >= b
    ensures r == a || r == b
  {
    if a < b then b else a
  }

  /** `d` is an integer multiple of 2*PI. */
  ghost predicate IsTurnMultiple(d: real)
  {
    (d / TWO_PI).Floor as real * TWO_PI == d
  }

  /** Truncation toward zero, the rounding of JavaScript's `%`. */
  function Trunc(t: real): (k: int)
    ensures t >= 0.0 ==> k as real <= t < k as real + 1.0
    ensures t < 0.0 ==> k as real - 1.0 < t <= k as real
    ensures -1.0 < t < 1.0 ==> k == 0
  {
    if t >= 0.0 then t.Floor else -((-t).Floor)
  }

  /** JavaScript `x % (2 * Math.PI)`: the remainder of truncated division,
      which takes the sign of the dividend `x`. */
  function RemTwoPi(x: real): (r: real)
    ensures 0.0 <= x ==> 0.0 <= r < TWO_PI
    ensures x < 0.0 ==> -TWO_PI < r <= 0.0
    ensures -TWO_PI < x < TWO_PI ==> r == x
    ensures IsTurnMultiple(x - r)
  {
    var k := Trunc(x / TWO_PI);
    assert (k as real * TWO_PI) / TWO_PI == k as real;
    x - k as real * TWO_PI
  }
}
