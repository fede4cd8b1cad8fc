/** The two sensor converters of src/game/SensorHandling.ts. Both are pure. */
module SensorHandling {
  import opened JsMath
  import opened Vectors
  import opened Rotations

  /** `(x / 180) * Math.PI`. */
  function DegToRad(x: real): real {
    (x / 180.0) * PI
  }

  /** `convertDeviceOrientation`: radians, with alpha shifted by half a turn,
      wrapped once and mirrored; beta and gamma only wrapped once. */
  function ConvertDeviceOrientation(alpha: real, beta: real, gamma: real): (r: Rotation)
    // alpha becomes PI - alpha (in radians), up to one turn
    ensures r.alpha == PI - DegToRad(alpha) || r.alpha == PI - DegToRad(alpha) + TWO_PI
    // for a compass heading in [0, 360) the result lies in (0, 2*PI]; it is not normalised
    ensures 0.0 <= alpha < 360.0 ==> 0.0 < r.alpha <= TWO_PI
    // beta and gamma are not reflected: unchanged when non-negative, one turn up otherwise
    ensures beta >= 0.0 ==> r.beta == DegToRad(beta)
    ensures beta < 0.0 ==> r.beta == DegToRad(beta) + TWO_PI
    ensures gamma >= 0.0 ==> r.gamma == DegToRad(gamma)
    ensures gamma < 0.0 ==> r.gamma == DegToRad(gamma) + TWO_PI
    ensures -360.0 <= beta < 360.0 ==> InTurn(r.beta)
    ensures -360.0 <= gamma < 360.0 ==> InTurn(r.gamma)
  {
    var a := DegToRad(alpha);
    var b := DegToRad(beta);
    var g := DegToRad(gamma);

    var a := a - PI;
    var a := if a < 0.0 then TWO_PI + a else a;
    var a := TWO_PI - a;
    var b := if b < 0.0 then TWO_PI + b else b;
    var g := if g < 0.0 then TWO_PI + g else g;

    Rotation(a, b, g)
  }

  /** Pointing the device at 180 degrees yields alpha = 2*PI, not 0. */
  lemma {:induction false} ConvertHalfTurnExample()
    ensures ConvertDeviceOrientation(180.0, 0.0, 0.0) == Rotation(TWO_PI, 0.0, 0.0)
  {
  }

  /** `DeviceMotionEventAcceleration`: each axis may be null. */
  datatype Acceleration = Acceleration(x: Option<real>, y: Option<real>, z: Option<real>)

  /** JavaScript truthiness of a nullable number: present and non-zero. */
  predicate Truthy(v: Option<real>) {
    v.Some? && v.value != 0.0
  }

  /** `convertDeviceMotion`: null unless the sample and all three axes are
      truthy; otherwise the device axes are remapped to (-x, z, -y). */
  function ConvertDeviceMotion(acceleration: Option<Acceleration>): (r: Option<Vec3>)
    ensures r.None? <==> acceleration.None? || !Truthy(acceleration.value.x) ||
                         !Truthy(acceleration.value.y) || !Truthy(acceleration.value.z)
    ensures r.Some? ==> DeviceFrame(r.value) == Vec3(acceleration.value.x.value,
                                                     acceleration.value.y.value,
                                                     acceleration.value.z.value)
  {
    if acceleration.Some? && Truthy(acceleration.value.x) && Truthy(acceleration.value.y) && Truthy(acceleration.value.z) then
      var a := acceleration.value;
      Some(Vec3(-a.x.value, a.z.value, -a.y.value))
    else
      None
  }

  /** The inverse of the motion remap: x = -r.x, y = -r.z, z = r.y. */
  function DeviceFrame(v: Vec3): Vec3 {
    Vec3(-v.x, -v.z, v.y)
  }

  /** The remap and its inverse undo each other in both directions. */
  lemma {:induction false} DeviceFrameInverse(v: Vec3, x: real, y: real, z: real)
    requires x != 0.0 && y != 0.0 && z != 0.0
    ensures ConvertDeviceMotion(Some(Acceleration(Some(x), Some(y), Some(z)))) == Some(Vec3(-x, z, -y))
    ensures DeviceFrame(Vec3(-x, z, -y)) == Vec3(x, y, z)
    ensures var w := DeviceFrame(v); Vec3(-w.x, w.z, -w.y) == v
  {
  }

  /** A zero reading counts as missing: `{x: 0, y: 1, z: 0}` gives null. */
  lemma {:induction false} ZeroAxisIsDropped()
    ensures ConvertDeviceMotion(Some(Acceleration(Some(0.0), Some(1.0), Some(0.0)))).None?
  {
  }
}
