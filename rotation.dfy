/** The angle triple `Rotation` of src/game/util/Rotation.ts and the sub-step
    generator `getRotationSubSteps`. A `Rotation` is an immutable value: every
    operation builds a new one, axis by axis, through `Operate` or
    `OperateScalar`. */
module Rotations {
  import opened JsMath

  /** 0 <= a < 2*PI: the range `normalize` aims for. */
  predicate InTurn(a: real) {
    0.0 <= a < TWO_PI
  }

  /** The per-axis function of `normalize`: wrap a negative value once by
      2*PI, then take JavaScript's `% (2 * Math.PI)`. */
  function NormalizeAngle(a: real): (r: real)
    ensures a >= -TWO_PI ==> InTurn(r)
    ensures a < -TWO_PI ==> -TWO_PI < r <= 0.0
    ensures InTurn(a) ==> r == a
    ensures IsTurnMultiple(a - r)
  {
    var w := if a < 0.0 then TWO_PI + a else a;
    var r := RemTwoPi(w);
    assert IsTurnMultiple(w - r);
    TurnMultipleShift(w - r);
    r
  }

  /** Adding one turn keeps a multiple of 2*PI a multiple of 2*PI. */
  lemma TurnMultipleShift(d: real)
    requires IsTurnMultiple(d)
    ensures IsTurnMultiple(d - TWO_PI)
  {
    var k := (d / TWO_PI).Floor;
    var t := d / TWO_PI;
    assert t == k as real;
    assert (d - TWO_PI) / TWO_PI == t - 1.0;
    assert (t - 1.0).Floor == k - 1;
  }

  /** The per-axis function of `dist`: the signed delta from `a` to `b`,
      corrected by one turn when the plain difference exceeds half a turn. */
  function AxisDist(a: real, b: real): (d: real)
    ensures a == b ==> d == 0.0
    ensures InTurn(a) && InTurn(b) ==> -PI <= d <= PI
    ensures InTurn(a) && InTurn(b) ==> a + d == b || a + d == b + TWO_PI || a + d == b - TWO_PI
  {
    if a - b > PI && a > b then TWO_PI - a + b
    else if b - a > PI && a <= b then b - TWO_PI - a
    else b - a
  }

  datatype Rotation = Rotation(alpha: real, beta: real, gamma: real) {

    /** `operate`: combine two rotations axis by axis. */
    function Operate(other: Rotation, f: (real, real) --> real): Rotation
      requires f.requires(alpha, other.alpha) && f.requires(beta, other.beta) && f.requires(gamma, other.gamma)
    {
      Rotation(f(alpha, other.alpha), f(beta, other.beta), f(gamma, other.gamma))
    }

    /** `operateScalar`: map every axis. */
    function OperateScalar(f: real --> real): Rotation
      requires f.requires(alpha) && f.requires(beta) && f.requires(gamma)
    {
      Rotation(f(alpha), f(beta), f(gamma))
    }

    /** Every axis lies in [0, 2*PI). */
    predicate IsNormal() {
      InTurn(alpha) && InTurn(beta) && InTurn(gamma)
    }

    /** Every axis is at least -2*PI, the inputs `normalize` brings into range. */
    predicate AboveMinusTurn() {
      alpha >= -TWO_PI && beta >= -TWO_PI && gamma >= -TWO_PI
    }

    function Normalize(): (r: Rotation)
      ensures AboveMinusTurn() ==> r.IsNormal()
      ensures IsTurnMultiple(alpha - r.alpha) && IsTurnMultiple(beta - r.beta) && IsTurnMultiple(gamma - r.gamma)
    {
      OperateScalar(NormalizeAngle)
    }

    function Mult(other: Rotation): Rotation {
      Operate(other, (a, b) => a * b)
    }

    function Add(other: Rotation): Rotation {
      Operate(other, (a, b) => a + b)
    }

    function Sub(other: Rotation): Rotation {
      Operate(other, (a, b) => a - b)
    }

    /** Division by a zero axis is a floating-point infinity or NaN in the
        source, which the model leaves out. */
    function Div(other: Rotation): Rotation
      requires other.alpha != 0.0 && other.beta != 0.0 && other.gamma != 0.0
    {
      Operate(other, (a, b) requires b != 0.0 => a / b)
    }

    function MultScalar(value: real): Rotation {
      OperateScalar(a => a * value)
    }

    function AddScalar(value: real): Rotation {
      OperateScalar(a => a + value)
    }

    function SubScalar(value: real): Rotation {
      OperateScalar(a => a - value)
    }

    function DivScalar(value: real): Rotation
      requires value != 0.0
    {
      OperateScalar(a => a / value)
    }

    /** `magSum`: the sum of the absolute values of the axes. */
    function MagSum(): (r: real)
      ensures r >= 0.0
      ensures r == 0.0 <==> alpha == 0.0 && beta == 0.0 && gamma == 0.0
    {
      Abs(alpha) + Abs(beta) + Abs(gamma)
    }

    /** `this.dist(other)`: the per-axis delta from this rotation to `other`. */
    function Dist(other: Rotation): Rotation {
      Operate(other, AxisDist)
    }
  }

  // Algebra of the componentwise operations.

  lemma {:induction false} SubAddInverse(r: Rotation, s: Rotation)
    ensures r.Sub(s).Add(s) == r && r.Add(s).Sub(s) == r
  {
  }

  lemma {:induction false} DivMultInverse(r: Rotation, s: Rotation)
    requires s.alpha != 0.0 && s.beta != 0.0 && s.gamma != 0.0
    ensures r.Div(s).Mult(s) == r
  {
  }

  lemma {:induction false} DivScalarMultScalarInverse(r: Rotation, v: real)
    requires v != 0.0
    ensures r.DivScalar(v).MultScalar(v) == r
  {
  }

  lemma {:induction false} AddScalarSubScalarInverse(r: Rotation, v: real)
    ensures r.AddScalar(v).SubScalar(v) == r
  {
  }

  /** `normalize` leaves a normal rotation alone, so it is idempotent on
      every input whose axes are at least -2*PI. */
  lemma {:induction false} NormalizeIdempotent(r: Rotation)
    requires r.AboveMinusTurn()
    ensures r.Normalize().Normalize() == r.Normalize()
  {
    var n := r.Normalize();
    assert n.IsNormal();
    assert NormalizeAngle(n.alpha) == n.alpha;
    assert NormalizeAngle(n.beta) == n.beta;
    assert NormalizeAngle(n.gamma) == n.gamma;
  }

  /** Below -2*PI an axis lands in (-2*PI, 0] rather than [0, 2*PI), because
      JavaScript's `%` keeps the sign of the dividend: -5*PI goes to -PI. */
  lemma NormalizeBelowMinusTurnExample()
    ensures NormalizeAngle(-5.0 * PI) == -PI
  {
    assert -3.0 * PI / TWO_PI == -1.5;
    assert Trunc(-1.5) == -1;
  }

  /** Whole turns below -2*PI are the exception: -4*PI goes to 0. */
  lemma NormalizeWholeTurnExample()
    ensures NormalizeAngle(-4.0 * PI) == 0.0
  {
    assert -2.0 * PI / TWO_PI == -1.0;
    assert Trunc(-1.0) == -1;
  }

  /** `r.dist(r)` is all zeros. */
  lemma {:induction false} DistSelf(r: Rotation)
    ensures r.Dist(r) == Rotation(0.0, 0.0, 0.0)
  {
  }

  /** For normal rotations each delta is at most half a turn and, added to
      the start, reaches the target up to one turn. */
  lemma {:induction false} DistShortest(a: Rotation, b: Rotation)
    requires a.IsNormal() && b.IsNormal()
    ensures var d := a.Dist(b);
      Abs(d.alpha) <= PI && Abs(d.beta) <= PI && Abs(d.gamma) <= PI &&
      IsTurnMultiple(a.alpha + d.alpha - b.alpha) &&
      IsTurnMultiple(a.beta + d.beta - b.beta) &&
      IsTurnMultiple(a.gamma + d.gamma - b.gamma)
  {
    var d := a.Dist(b);
    TurnMultipleChoices(a.alpha + d.alpha - b.alpha);
    TurnMultipleChoices(a.beta + d.beta - b.beta);
    TurnMultipleChoices(a.gamma + d.gamma - b.gamma);
  }

  lemma TurnMultipleChoices(e: real)
    requires e == 0.0 || e == TWO_PI || e == -TWO_PI
    ensures IsTurnMultiple(e)
  {
    assert e / TWO_PI == 0.0 || e / TWO_PI == 1.0 || e / TWO_PI == -1.0;
  }

  /** Going from 0.1 to 6.2 radians takes the short way back across 0. */
  lemma DistWrapsExample()
    ensures var d := Rotation(0.1, 0.0, 0.0).Dist(Rotation(6.2, 0.0, 0.0)).alpha;
      -0.2 < d < 0.0
  {
  }

  // The sub-step generator.

  /** `floor(magSum(delta) / limitDelta) + 1`. */
  function SubStepCount(limitDelta: real, rotA: Rotation, rotB: Rotation): (n: int)
    requires limitDelta > 0.0
    ensures n >= 1
  {
    var s := rotA.Dist(rotB).MagSum() / limitDelta;
    assert s >= 0.0;
    s.Floor + 1
  }

  /** `step = delta / subStepsCount`. */
  function SubStep(limitDelta: real, rotA: Rotation, rotB: Rotation): Rotation
    requires limitDelta > 0.0
  {
    rotA.Dist(rotB).DivScalar(SubStepCount(limitDelta, rotA, rotB) as real)
  }

  /** The intermediate pose `step * i + rotA`, normalised. */
  function Interpolated(limitDelta: real, rotA: Rotation, rotB: Rotation, i: int): Rotation
    requires limitDelta > 0.0
  {
    SubStep(limitDelta, rotA, rotB).MultScalar(i as real).Add(rotA).Normalize()
  }

  /** The sequence `getRotationSubSteps` returns: the intermediate poses for
      i = 1 .. count-1, then `rotB` itself. */
  function SubSteps(limitDelta: real, rotA: Rotation, rotB: Rotation): seq<Rotation>
    requires limitDelta > 0.0
  {
    var n := SubStepCount(limitDelta, rotA, rotB);
    seq(n - 1, k => Interpolated(limitDelta, rotA, rotB, k + 1)) + [rotB]
  }

  method GetRotationSubSteps(limitDelta: real, rotA: Rotation, rotB: Rotation) returns (steps: seq<Rotation>)
    requires limitDelta > 0.0
    ensures steps == SubSteps(limitDelta, rotA, rotB)
  {
    var deltaRotation := rotA.Dist(rotB);
    var deltaSum := deltaRotation.MagSum();
    var subStepsCount := (deltaSum / limitDelta).Floor + 1;
    assert subStepsCount == SubStepCount(limitDelta, rotA, rotB);
    var step := deltaRotation.DivScalar(subStepsCount as real);
    steps := [];
    var i := 1;
    while i < subStepsCount
      invariant 1 <= i <= subStepsCount
      invariant |steps| == i - 1
      invariant forall k :: 0 <= k < i - 1 ==> steps[k] == Interpolated(limitDelta, rotA, rotB, k + 1)
    {
      steps := steps + [step.MultScalar(i as real).Add(rotA).Normalize()];
      i := i + 1;
    }
    steps := steps + [rotB];
  }

  /** The sequence has `floor(magSum(delta) / limitDelta) + 1 >= 1` elements,
      every one but the last is an interpolated pose, and the last is `rotB`. */
  lemma {:induction false} SubStepsShape(limitDelta: real, rotA: Rotation, rotB: Rotation)
    requires limitDelta > 0.0
    ensures var s := SubSteps(limitDelta, rotA, rotB);
      var m := rotA.Dist(rotB).MagSum() / limitDelta;
      |s| == m.Floor + 1 && |s| >= 1 && s[|s| - 1] == rotB &&
      forall k :: 0 <= k < |s| - 1 ==> s[k] == Interpolated(limitDelta, rotA, rotB, k + 1)
  {
  }

  /** Each increment is smaller than the limit: magSum(step) < limitDelta. */
  lemma {:induction false} SubStepBelowLimit(limitDelta: real, rotA: Rotation, rotB: Rotation)
    requires limitDelta > 0.0
    ensures SubStep(limitDelta, rotA, rotB).MagSum() < limitDelta
  {
    var d := rotA.Dist(rotB);
    var n := SubStepCount(limitDelta, rotA, rotB) as real;
    var s := d.MagSum();
    var m := s / limitDelta;
    assert n > m;
    AbsDiv(d.alpha, n);
    AbsDiv(d.beta, n);
    AbsDiv(d.gamma, n);
    assert SubStep(limitDelta, rotA, rotB).MagSum() == Abs(d.alpha) / n + Abs(d.beta) / n + Abs(d.gamma) / n;
    DivSum(Abs(d.alpha), Abs(d.beta), Abs(d.gamma), n);
    QuotientBelow(s, limitDelta, n);
  }

  lemma AbsDiv(x: real, n: real)
    requires n > 0.0
    ensures Abs(x / n) == Abs(x) / n
  {
  }

  lemma DivSum(a: real, b: real, c: real, n: real)
    requires n > 0.0
    ensures a / n + b / n + c / n == (a + b + c) / n
  {
  }

  /** s / l < n implies s / n < l, for positive l and n. */
  lemma QuotientBelow(s: real, l: real, n: real)
    requires l > 0.0 && n > 0.0 && s / l < n
    ensures s / n < l
  {
    var q := s / l;
    assert s == q * l;
    var p := n * l;
    MulPosLt(q, n, l);
    assert s < p;
    assert s / n < p / n;
    assert p / n == l;
  }

  lemma MulPosLt(a: real, b: real, l: real)
    requires a < b && l > 0.0
    ensures a * l < b * l
  {
  }

  /** For normal endpoints every intermediate pose is normal too: each
      partial delta is at most half a turn, so the sum stays above -2*PI. */
  lemma {:induction false} InterpolatedIsNormal(limitDelta: real, rotA: Rotation, rotB: Rotation, i: int)
    requires limitDelta > 0.0 && rotA.IsNormal() && rotB.IsNormal()
    requires 1 <= i < SubStepCount(limitDelta, rotA, rotB)
    ensures Interpolated(limitDelta, rotA, rotB, i).IsNormal()
  {
    var n := SubStepCount(limitDelta, rotA, rotB) as real;
    DistShortest(rotA, rotB);
    StepAbove(rotA.Dist(rotB), n, i as real, rotA);
  }

  /** `d / n * i + a` is above -2*PI on every axis when each axis of `d` is
      at most half a turn, `a` is normal and 0 <= i <= n. */
  lemma StepAbove(d: Rotation, n: real, i: real, a: Rotation)
    requires n > 0.0 && 0.0 <= i <= n && a.IsNormal()
    requires Abs(d.alpha) <= PI && Abs(d.beta) <= PI && Abs(d.gamma) <= PI
    ensures d.DivScalar(n).MultScalar(i).Add(a).AboveMinusTurn()
  {
    PartialStepAbove(d.alpha, n, i, a.alpha);
    PartialStepAbove(d.beta, n, i, a.beta);
    PartialStepAbove(d.gamma, n, i, a.gamma);
    StepAxes(d, n, i, a);
  }

  /** The axes of `d / n * i + a`, one by one. */
  lemma StepAxes(d: Rotation, n: real, i: real, a: Rotation)
    requires n != 0.0
    ensures var x := d.DivScalar(n).MultScalar(i).Add(a);
      x.alpha == (d.alpha / n) * i + a.alpha &&
      x.beta == (d.beta / n) * i + a.beta &&
      x.gamma == (d.gamma / n) * i + a.gamma
  {
  }

  lemma PartialStepAbove(d: real, n: real, i: real, a: real)
    requires n > 0.0 && 0.0 <= i <= n && Abs(d) <= PI && a >= 0.0
    ensures (d / n) * i + a >= -TWO_PI
  {
    PartialBound(d, n, i);
  }

  /** |(d / n) * i| <= |d| when 0 <= i <= n. */
  lemma PartialBound(d: real, n: real, i: real)
    requires n > 0.0 && 0.0 <= i <= n
    ensures -Abs(d) <= (d / n) * i <= Abs(d)
  {
    var f := i / n;
    assert 0.0 <= f <= 1.0;
    assert (d / n) * i == d * f;
    if d >= 0.0 {
      assert 0.0 <= d * f <= d;
    } else {
      assert d <= d * f <= 0.0;
    }
  }

  /** Every element of the sub-step sequence is normal when both endpoints are. */
  lemma {:induction false} SubStepsAreNormal(limitDelta: real, rotA: Rotation, rotB: Rotation)
    requires limitDelta > 0.0 && rotA.IsNormal() && rotB.IsNormal()
    ensures forall r :: r in SubSteps(limitDelta, rotA, rotB) ==> r.IsNormal()
  {
    var s := SubSteps(limitDelta, rotA, rotB);
    forall k | 0 <= k < |s|
      ensures s[k].IsNormal()
    {
      if k < |s| - 1 {
        InterpolatedIsNormal(limitDelta, rotA, rotB, k + 1);
      }
    }
  }

  /** From a pose to itself there is exactly one step: the pose. */
  lemma {:induction false} SubStepsOfSame(limitDelta: real, r: Rotation)
    requires limitDelta > 0.0
    ensures SubSteps(limitDelta, r, r) == [r]
  {
    SubStepCountOfSame(limitDelta, r);
    SubStepsShape(limitDelta, r, r);
    var s := SubSteps(limitDelta, r, r);
    assert |s| == 1 && s[0] == r;
  }

  lemma {:induction false} SubStepCountOfSame(limitDelta: real, r: Rotation)
    requires limitDelta > 0.0
    ensures SubStepCount(limitDelta, r, r) == 1
    ensures (r.Dist(r).MagSum() / limitDelta).Floor == 0
  {
    var m := r.Dist(r).MagSum();
    assert m == 0.0 by {
      DistSelf(r);
    }
    ZeroDiv(m, limitDelta);
  }

  lemma ZeroDiv(m: real, l: real)
    requires m == 0.0 && l > 0.0
    ensures m / l == 0.0 && (m / l).Floor == 0
  {
  }

  /** The zero pose to itself, with the limit the world uses. */
  lemma SubStepsZeroExample()
    ensures SubSteps(0.03, Rotation(0.0, 0.0, 0.0), Rotation(0.0, 0.0, 0.0)) == [Rotation(0.0, 0.0, 0.0)]
  {
    SubStepsOfSame(0.03, Rotation(0.0, 0.0, 0.0));
  }
}
