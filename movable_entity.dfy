/** The movement integrator of src/components/Entities/MovableEntity.ts.
    The entity's mesh is not modelled: the displacements handed to
    `mesh.moveWithCollisions` are appended to `displacements`, and the
    library's vector length is the function `norm`. */
module Movement {
  import opened JsMath
  import opened Vectors

  /** The speed below which `move` issues no collision move. */
  const MOVE_THRESHOLD: real := 0.001

  /** One axis of the clamp in `getFrictionVector`: a friction component
      larger in magnitude than the speed component is replaced by the
      negated speed component, which brings that axis exactly to rest. */
  function ClampAxis(raw: real, speed: real): (c: real)
    ensures Abs(c) <= Abs(speed)
    ensures Abs(raw) > Abs(speed) ==> c == -speed
    ensures Abs(raw) <= Abs(speed) ==> c == raw
  {
    if Abs(raw) > Abs(speed) then -speed else raw
  }

  /** `getFrictionVector` as a function of the speed and its normalised
      direction: half the maximum acceleration against the direction of
      motion, clamped axis by axis. */
  function Friction(speed: Vec3, direction: Vec3, maxAcceleration: real): (f: Vec3)
    ensures Abs(f.x) <= Abs(speed.x) && Abs(f.y) <= Abs(speed.y) && Abs(f.z) <= Abs(speed.z)
  {
    var raw := direction.Scale(-maxAcceleration / 2.0);
    Vec3(ClampAxis(raw.x, speed.x), ClampAxis(raw.y, speed.y), ClampAxis(raw.z, speed.z))
  }

  /** The speed after one `move`: the acceleration is added in full when the
      sum of the two lengths is within `maxSpeed` and skipped otherwise; the
      friction of the resulting speed is then added unconditionally. */
  function MoveSpeed(norm: Vec3 -> real, speed: Vec3, acceleration: Vec3,
                     maxSpeed: real, maxAcceleration: real): Vec3
  {
    var s := if norm(speed) + norm(acceleration) <= maxSpeed then speed.Add(acceleration) else speed;
    s.Add(Friction(s, Normalized(norm, s), maxAcceleration))
  }

  /** On one axis, friction against the motion never turns the axis around
      and never makes it faster: `speed + f` lies between 0 and `speed`
      whenever the unclamped component opposes the speed. */
  lemma FrictionAxisTowardRest(speed: real, raw: real)
    requires speed >= 0.0 ==> raw <= 0.0
    requires speed <= 0.0 ==> raw >= 0.0
    ensures var f := ClampAxis(raw, speed);
      (speed >= 0.0 ==> 0.0 <= speed + f <= speed) &&
      (speed <= 0.0 ==> speed <= speed + f <= 0.0)
  {
  }

  /** A non-positive multiple of a non-negative multiple of `x` opposes `x`. */
  lemma OppositeSign(x: real, k: real, m: real, p: real)
    requires k >= 0.0 && m <= 0.0 && p == m * (k * x)
    ensures x >= 0.0 ==> p <= 0.0
    ensures x <= 0.0 ==> p >= 0.0
  {
    var d := k * x;
    if x >= 0.0 {
      MulNonneg(k, x, d);
      MulNonneg(-m, d, -p);
    } else {
      MulNonneg(k, -x, -d);
      MulNonneg(-m, -d, p);
    }
  }

  /** Friction of the normalised speed moves every axis toward rest without
      passing it. */
  lemma {:induction false} FrictionTowardRest(norm: Vec3 -> real, s: Vec3, maxAcceleration: real)
    requires norm(s) >= 0.0 && maxAcceleration >= 0.0
    ensures var r := s.Add(Friction(s, Normalized(norm, s), maxAcceleration));
      (s.x >= 0.0 ==> 0.0 <= r.x <= s.x) && (s.x <= 0.0 ==> s.x <= r.x <= 0.0) &&
      (s.y >= 0.0 ==> 0.0 <= r.y <= s.y) && (s.y <= 0.0 ==> s.y <= r.y <= 0.0) &&
      (s.z >= 0.0 ==> 0.0 <= r.z <= s.z) && (s.z <= 0.0 ==> s.z <= r.z <= 0.0)
  {
    var k := NormalizingFactor(norm, s);
    NormalizedIsScaled(norm, s);
    var m := -maxAcceleration / 2.0;
    var raw := s.Scale(k).Scale(m);
    OppositeSign(s.x, k, m, raw.x);
    OppositeSign(s.y, k, m, raw.y);
    OppositeSign(s.z, k, m, raw.z);
    FrictionAxisTowardRest(s.x, raw.x);
    FrictionAxisTowardRest(s.y, raw.y);
    FrictionAxisTowardRest(s.z, raw.z);
  }

  /** |a| <= |b| gives a^2 <= b^2. */
  lemma SquareDominated(a: real, b: real)
    requires Abs(a) <= Abs(b)
    ensures a * a <= b * b
  {
    var p, q := Abs(a), Abs(b);
    AbsSq(a);
    AbsSq(b);
    assert q * q - p * p == (q - p) * (q + p);
    MulNonneg(q - p, q + p, (q - p) * (q + p));
  }

  /** A vector dominated axis by axis is no longer. */
  lemma {:induction false} DominatedNoLonger(norm: Vec3 -> real, u: Vec3, v: Vec3)
    requires IsNorm(norm)
    requires Abs(u.x) <= Abs(v.x) && Abs(u.y) <= Abs(v.y) && Abs(u.z) <= Abs(v.z)
    ensures norm(u) <= norm(v)
  {
    SquareDominated(u.x, v.x);
    SquareDominated(u.y, v.y);
    SquareDominated(u.z, v.z);
    SquaresDominated(u, v);
    assert IsLength(norm(u), u) && IsLength(norm(v), v);
    LengthMono(norm(u), norm(v), u, v);
  }

  lemma SquaresDominated(u: Vec3, v: Vec3)
    requires u.x * u.x <= v.x * v.x && u.y * u.y <= v.y * v.y && u.z * u.z <= v.z * v.z
    ensures u.LengthSq() <= v.LengthSq()
  {
  }

  /** Friction never makes the entity faster. */
  lemma {:induction false} FrictionNoFaster(norm: Vec3 -> real, s: Vec3, maxAcceleration: real)
    requires IsNorm(norm) && maxAcceleration >= 0.0
    ensures norm(s.Add(Friction(s, Normalized(norm, s), maxAcceleration))) <= norm(s)
  {
    assert IsLength(norm(s), s);
    FrictionTowardRest(norm, s, maxAcceleration);
    DominatedNoLonger(norm, s.Add(Friction(s, Normalized(norm, s), maxAcceleration)), s);
  }

  /** The speed-bound invariant of `move`: the new speed is no longer than
      `maxSpeed` or the old speed, whichever is larger. */
  lemma {:induction false} MoveSpeedBound(norm: Vec3 -> real, speed: Vec3, acceleration: Vec3,
                                          maxSpeed: real, maxAcceleration: real)
    requires IsNorm(norm) && maxAcceleration >= 0.0
    ensures norm(MoveSpeed(norm, speed, acceleration, maxSpeed, maxAcceleration)) <= Max(maxSpeed, norm(speed))
  {
    var s := if norm(speed) + norm(acceleration) <= maxSpeed then speed.Add(acceleration) else speed;
    if norm(speed) + norm(acceleration) <= maxSpeed {
      assert IsLength(norm(speed), speed) && IsLength(norm(acceleration), acceleration);
      assert IsLength(norm(s), s);
      Triangle(speed, acceleration, norm(speed), norm(acceleration), norm(s));
    }
    FrictionNoFaster(norm, s, maxAcceleration);
  }

  /** Scaling the unit direction of a non-zero vector by `m` gives length |m|;
      the zero vector stays zero. */
  lemma {:induction false} ScaledDirectionLength(norm: Vec3 -> real, a: Vec3, m: real)
    requires IsNorm(norm)
    ensures a != Zero() ==> norm(Normalized(norm, a).Scale(m)) == Abs(m)
    ensures a == Zero() ==> Normalized(norm, a).Scale(m) == Zero()
  {
    NormalizedLength(norm, a);
    if a != Zero() {
      var u := Normalized(norm, a);
      assert IsLength(norm(u), u);
      ScaledUnitLength(norm, u, m);
    }
  }

  lemma ScaledUnitLength(norm: Vec3 -> real, u: Vec3, m: real)
    requires IsNorm(norm) && norm(u) == 1.0
    ensures norm(u.Scale(m)) == Abs(m)
  {
    assert IsLength(1.0, u);
    LengthOfScaled(1.0, u, m);
    var w := u.Scale(m);
    assert IsLength(norm(w), w);
    LengthUnique(Abs(m) * 1.0, norm(w), w);
  }

  class MovableEntity {
    /** The library's `length()`; see `Vectors.IsNorm`. */
    const norm: Vec3 -> real
    var maxSpeed: real
    var maxAcceleration: real
    var maxSpeedAng: real
    var speed: Vec3
    var acceleration: Vec3
    /** The arguments of `mesh.moveWithCollisions`, oldest first. */
    var displacements: seq<Vec3>

    /** The speed is within the cap. */
    ghost predicate WithinCap()
      reads this
    {
      norm(speed) <= maxSpeed
    }

    /** The limits as passed (0 by default), at rest, nothing moved yet. */
    constructor (norm: Vec3 -> real, maxSpeed: real := 0.0, maxSpeedAng: real := 0.0,
                 maxAcceleration: real := 0.0)
      ensures this.norm == norm
      ensures this.maxSpeed == maxSpeed && this.maxSpeedAng == maxSpeedAng
      ensures this.maxAcceleration == maxAcceleration
      ensures speed == Zero() && acceleration == Zero() && displacements == []
    {
      this.norm := norm;
      this.maxSpeed := maxSpeed;
      this.maxSpeedAng := maxSpeedAng;
      this.maxAcceleration := maxAcceleration;
      speed := Zero();
      acceleration := Zero();
      displacements := [];
    }

    /** `getFrictionVector`: builds the unclamped friction, then overwrites
        each axis whose magnitude exceeds the speed's. */
    method GetFrictionVector() returns (res: Vec3)
      ensures res == Friction(speed, Normalized(norm, speed), maxAcceleration)
    {
      res := Normalized(norm, speed).Scale(-maxAcceleration / 2.0);
      if Abs(res.x) > Abs(speed.x) {
        res := res.(x := -speed.x);
      }
      if Abs(res.y) > Abs(speed.y) {
        res := res.(y := -speed.y);
      }
      if Abs(res.z) > Abs(speed.z) {
        res := res.(z := -speed.z);
      }
    }

    /** `move`: the capped acceleration step, friction, and a collision move
        by the final speed exactly when it exceeds `MOVE_THRESHOLD`. */
    method Move()
      modifies this`speed, this`displacements
      ensures speed == MoveSpeed(norm, old(speed), acceleration, maxSpeed, maxAcceleration)
      ensures displacements == old(displacements) + (if norm(speed) > MOVE_THRESHOLD then [speed] else [])
    {
      if norm(speed) + norm(acceleration) <= maxSpeed {
        speed := speed.Add(acceleration);
      }
      var friction := GetFrictionVector();
      speed := speed.Add(friction);
      if norm(speed) > MOVE_THRESHOLD {
        displacements := displacements + [speed];
      }
    }

    /** `tick`: one `move`; the base class's `tick` only re-reads the mesh
        position, which is not modelled. */
    method Tick()
      modifies this`speed, this`displacements
      ensures speed == MoveSpeed(norm, old(speed), acceleration, maxSpeed, maxAcceleration)
      ensures displacements == old(displacements) + (if norm(speed) > MOVE_THRESHOLD then [speed] else [])
      ensures IsNorm(norm) && maxAcceleration >= 0.0 ==> norm(speed) <= Max(maxSpeed, norm(old(speed)))
      ensures IsNorm(norm) && maxAcceleration >= 0.0 && old(WithinCap()) ==> WithinCap()
    {
      if IsNorm(norm) && maxAcceleration >= 0.0 {
        MoveSpeedBound(norm, speed, acceleration, maxSpeed, maxAcceleration);
      }
      Move();
    }

    /** `applyAcceleration`: the unit direction of `a` scaled by
        `maxAcceleration`. */
    method ApplyAcceleration(a: Vec3)
      modifies this`acceleration
      ensures acceleration == Normalized(norm, a).Scale(maxAcceleration)
      ensures IsNorm(norm) && a != Zero() ==> norm(acceleration) == Abs(maxAcceleration)
      ensures IsNorm(norm) && a == Zero() ==> acceleration == Zero()
    {
      acceleration := Normalized(norm, a).Scale(maxAcceleration);
      if IsNorm(norm) {
        ScaledDirectionLength(norm, a, maxAcceleration);
      }
    }
  }

  /** Starting at rest with `maxAcceleration` m within `maxSpeed`, pushing
      along x (`applyAcceleration`) and ticking once (`tick`) leaves the
      entity moving at m/2 along x, fast enough for a collision move when m/2
      exceeds `MOVE_THRESHOLD`. With `maxSpeed` 1 and `maxAcceleration` 0.2
      this is a speed of (0.1, 0, 0) and one move by (0.1, 0, 0). */
  lemma {:induction false} PushOnce(norm: Vec3 -> real, maxSpeed: real, m: real, x: real)
    requires IsNorm(norm) && 2.0 * MOVE_THRESHOLD < m <= maxSpeed && x > 0.0
    ensures var acceleration := Normalized(norm, Vec3(x, 0.0, 0.0)).Scale(m);
      var speed := MoveSpeed(norm, Zero(), acceleration, maxSpeed, m);
      speed == Vec3(m / 2.0, 0.0, 0.0) && norm(speed) > MOVE_THRESHOLD
  {
    PushDirection(norm, x, m);
    PushSpeed(norm, maxSpeed, m);
    XLength(norm, m / 2.0);
  }

  /** The acceleration stored by `applyAcceleration((x, 0, 0))`, x > 0. */
  lemma PushDirection(norm: Vec3 -> real, x: real, m: real)
    requires IsNorm(norm) && x > 0.0
    ensures Normalized(norm, Vec3(x, 0.0, 0.0)).Scale(m) == Vec3(m, 0.0, 0.0)
  {
    XLength(norm, x);
    var u := Vec3(x, 0.0, 0.0).Scale(1.0 / x);
    assert u == Vec3(1.0, 0.0, 0.0);
  }

  /** One move from rest under the acceleration (m, 0, 0). */
  lemma PushSpeed(norm: Vec3 -> real, maxSpeed: real, m: real)
    requires IsNorm(norm) && 0.0 < m <= maxSpeed
    ensures MoveSpeed(norm, Zero(), Vec3(m, 0.0, 0.0), maxSpeed, m) == Vec3(m / 2.0, 0.0, 0.0)
  {
    NormZero(norm, Zero());
    XLength(norm, m);
    AccelerationTaken(norm, Zero(), Vec3(m, 0.0, 0.0), maxSpeed, m);
    AddZero(Vec3(m, 0.0, 0.0));
    FrictionAlongX(norm, m);
  }

  lemma AccelerationTaken(norm: Vec3 -> real, speed: Vec3, acceleration: Vec3,
                          maxSpeed: real, maxAcceleration: real)
    requires norm(speed) + norm(acceleration) <= maxSpeed
    ensures var s := speed.Add(acceleration);
      MoveSpeed(norm, speed, acceleration, maxSpeed, maxAcceleration)
        == s.Add(Friction(s, Normalized(norm, s), maxAcceleration))
  {
  }

  /** The friction of the speed (m, 0, 0) under `maxAcceleration` m. */
  lemma FrictionAlongX(norm: Vec3 -> real, m: real)
    requires IsNorm(norm) && 0.0 < m
    ensures var s := Vec3(m, 0.0, 0.0);
      s.Add(Friction(s, Normalized(norm, s), m)) == Vec3(m / 2.0, 0.0, 0.0)
  {
    var s := Vec3(m, 0.0, 0.0);
    PushDirection(norm, m, -m / 2.0);
    var raw := Normalized(norm, s).Scale(-m / 2.0);
    assert ClampAxis(raw.x, s.x) == -m / 2.0;
    assert ClampAxis(raw.y, s.y) == 0.0;
    assert ClampAxis(raw.z, s.z) == 0.0;
  }

  lemma NormZero(norm: Vec3 -> real, z: Vec3)
    requires IsNorm(norm) && z == Zero()
    ensures norm(z) == 0.0
  {
    assert IsLength(norm(z), z);
    LengthZero(norm(z), z);
  }

  lemma XLength(norm: Vec3 -> real, x: real)
    requires IsNorm(norm) && x >= 0.0
    ensures norm(Vec3(x, 0.0, 0.0)) == x
  {
    var v := Vec3(x, 0.0, 0.0);
    assert IsLength(norm(v), v);
    assert IsLength(x, v);
    LengthUnique(norm(v), x, v);
  }
}
