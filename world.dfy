/** The per-frame synchronizer of src/game/World.ts and the two sensor
    handlers installed by `linkSensors`. The module-level variables
    `simRotation`, `deviceRotation` and `deviceMotion` become the fields of
    `WorldState`; the calls the frame makes into the physics engine
    (assigning the ground's pose, a zero-duration advance, setting gravity)
    are appended to `events` in the order they are made. */
module World {
  import opened JsMath
  import opened Vectors
  import opened Rotations
  import opened SensorHandling

  /** The per-step budget `updateWorldRotation` passes to the generator. */
  const LIMIT_DELTA: real := 0.03

  /** `initialGravity`. */
  function InitialGravity(): Vec3 {
    Vec3(0.0, -1.0, 0.0)
  }

  /** A call the frame makes into the scene or the physics engine. */
  datatype Event =
    | SetGroundPose(pose: Rotation)  // ground.rotationQuaternion = RotationYawPitchRoll(pose)
    | AdvancePhysics0                // scene._advancePhysicsEngineStep(0)
    | SetGravity(gravity: Vec3)      // physicsEngine.setGravity(gravity)

  /** Each pose of `p` assigned and followed by a zero-duration advance. */
  function Settled(p: seq<Rotation>): seq<Event>
    decreases |p|
  {
    if p == [] then [] else Settled(p[..|p| - 1]) + [SetGroundPose(p[|p| - 1]), AdvancePhysics0]
  }

  /** The loop of `updateWorldRotation`: every sub-step is assigned, and an
      advance follows every assignment except the last. */
  function FrameTrace(subs: seq<Rotation>): seq<Event> {
    if subs == [] then [] else Settled(subs[..|subs| - 1]) + [SetGroundPose(subs[|subs| - 1])]
  }

  /** The assigned poses of a trace, in order. */
  function Poses(t: seq<Event>): seq<Rotation> {
    if t == [] then []
    else (if t[0].SetGroundPose? then [t[0].pose] else []) + Poses(t[1..])
  }

  /** The number of zero-duration advances in a trace. */
  function CountAdvances(t: seq<Event>): nat {
    if t == [] then 0
    else (if t[0].AdvancePhysics0? then 1 else 0) + CountAdvances(t[1..])
  }

  lemma {:induction false} PosesAppend(a: seq<Event>, b: seq<Event>)
    ensures Poses(a + b) == Poses(a) + Poses(b)
    ensures CountAdvances(a + b) == CountAdvances(a) + CountAdvances(b)
  {
    PosesOnlyAppend(a, b);
    AdvancesAppend(a, b);
  }

  lemma {:induction false} PosesOnlyAppend(a: seq<Event>, b: seq<Event>)
    ensures Poses(a + b) == Poses(a) + Poses(b)
  {
    if a == [] {
      assert a + b == b;
    } else {
      var h := if a[0].SetGroundPose? then [a[0].pose] else [];
      assert (a + b)[0] == a[0];
      assert (a + b)[1..] == a[1..] + b;
      PosesOnlyAppend(a[1..], b);
      assert Poses(a + b) == h + (Poses(a[1..]) + Poses(b));
      assert h + (Poses(a[1..]) + Poses(b)) == (h + Poses(a[1..])) + Poses(b);
    }
  }

  lemma {:induction false} AdvancesAppend(a: seq<Event>, b: seq<Event>)
    ensures CountAdvances(a + b) == CountAdvances(a) + CountAdvances(b)
  {
    if a == [] {
      assert a + b == b;
    } else {
      assert (a + b)[0] == a[0];
      assert (a + b)[1..] == a[1..] + b;
      AdvancesAppend(a[1..], b);
    }
  }

  lemma PosesOfPair(r: Rotation)
    ensures Poses([SetGroundPose(r), AdvancePhysics0]) == [r]
    ensures CountAdvances([SetGroundPose(r), AdvancePhysics0]) == 1
  {
    var t := [SetGroundPose(r), AdvancePhysics0];
    assert t[1..] == [AdvancePhysics0];
    assert t[1..][1..] == [];
    assert Poses(t[1..]) == [];
    assert CountAdvances(t[1..][1..]) == 0;
    assert CountAdvances(t[1..]) == 1;
  }

  /** Position 2k of `Settled(p)` assigns p[k]; position 2k+1 advances. */
  lemma {:induction false} SettledAt(p: seq<Rotation>)
    ensures |Settled(p)| == 2 * |p|
    ensures forall i :: 0 <= i < 2 * |p| ==>
      Settled(p)[i] == if i % 2 == 0 then SetGroundPose(p[i / 2]) else AdvancePhysics0
    decreases |p|
  {
    if p != [] {
      var q := p[..|p| - 1];
      SettledAt(q);
      assert forall k :: 0 <= k < |q| ==> q[k] == p[k];
    }
  }

  lemma {:induction false} SettledPoses(p: seq<Rotation>)
    ensures Poses(Settled(p)) == p
    ensures CountAdvances(Settled(p)) == |p|
    decreases |p|
  {
    if p != [] {
      var q := p[..|p| - 1];
      SettledPoses(q);
      var tail := [SetGroundPose(p[|p| - 1]), AdvancePhysics0];
      PosesAppend(Settled(q), tail);
      PosesOfPair(p[|p| - 1]);
      assert q + [p[|p| - 1]] == p;
    }
  }

  /** The shape of one frame's trace: poses at the even positions in the
      order of `subs`, an advance at every odd position, `2|subs| - 1`
      events, and a pose at the end. */
  lemma {:induction false} FrameTraceShape(subs: seq<Rotation>)
    requires |subs| >= 1
    ensures var t := FrameTrace(subs);
      |t| == 2 * |subs| - 1 &&
      (forall i :: 0 <= i < |t| ==>
         t[i] == if i % 2 == 0 then SetGroundPose(subs[i / 2]) else AdvancePhysics0) &&
      t[|t| - 1] == SetGroundPose(subs[|subs| - 1])
  {
    var q := subs[..|subs| - 1];
    SettledAt(q);
    var t := FrameTrace(subs);
    forall i | 0 <= i < |t|
      ensures t[i] == if i % 2 == 0 then SetGroundPose(subs[i / 2]) else AdvancePhysics0
    {
      if i < 2 * |q| {
        assert t[i] == Settled(q)[i];
      }
    }
  }

  /** Exactly `|subs| - 1` advances, and the poses assigned are exactly
      `subs`, in order. */
  lemma {:induction false} FrameTraceCounts(subs: seq<Rotation>)
    requires |subs| >= 1
    ensures CountAdvances(FrameTrace(subs)) == |subs| - 1
    ensures Poses(FrameTrace(subs)) == subs
  {
    var q := subs[..|subs| - 1];
    var last := [SetGroundPose(subs[|subs| - 1])];
    SettledPoses(q);
    PosesAppend(Settled(q), last);
    assert last[1..] == [];
    assert q + [subs[|subs| - 1]] == subs;
  }

  /** No two advances are adjacent: every advance settles a fresh pose. */
  lemma {:induction false} FrameTraceNoDoubleAdvance(subs: seq<Rotation>, i: int)
    requires |subs| >= 1
    requires 0 <= i < |FrameTrace(subs)| - 1
    ensures !(FrameTrace(subs)[i].AdvancePhysics0? && FrameTrace(subs)[i + 1].AdvancePhysics0?)
  {
    FrameTraceShape(subs);
    var t := FrameTrace(subs);
    if i % 2 == 0 {
      assert t[i].SetGroundPose?;
    } else {
      assert (i + 1) % 2 == 0;
      assert t[i + 1].SetGroundPose?;
    }
  }

  /** The last pose the frame assigns is the device rotation itself. */
  lemma {:induction false} FrameEndsAtTarget(simRotation: Rotation, deviceRotation: Rotation)
    ensures var t := FrameTrace(SubSteps(LIMIT_DELTA, simRotation, deviceRotation));
      |t| >= 1 && t[|t| - 1] == SetGroundPose(deviceRotation)
  {
    SubStepsShape(LIMIT_DELTA, simRotation, deviceRotation);
    FrameTraceShape(SubSteps(LIMIT_DELTA, simRotation, deviceRotation));
  }

  /** Already in sync: one assignment and no advance. */
  lemma {:induction false} FrameInSync(r: Rotation)
    ensures FrameTrace(SubSteps(LIMIT_DELTA, r, r)) == [SetGroundPose(r)]
  {
    SubStepsOfSame(LIMIT_DELTA, r);
    FrameTraceSingle(r);
  }

  lemma FrameTraceSingle(r: Rotation)
    ensures FrameTrace([r]) == [SetGroundPose(r)]
  {
    assert [r][..0] == [];
  }

  lemma SettledStep(s: seq<Rotation>, i: int)
    requires 0 <= i < |s|
    ensures Settled(s[..i + 1]) == Settled(s[..i]) + [SetGroundPose(s[i]), AdvancePhysics0]
    ensures FrameTrace(s[..i + 1]) == Settled(s[..i]) + [SetGroundPose(s[i])]
  {
    assert s[..i + 1][..i] == s[..i];
  }

  /** The calls one frame makes: the sub-step poses with their advances,
      then the rotated device motion plus the resting gravity, when a physics
      engine is enabled. */
  function FrameEvents(simRotation: Rotation, deviceRotation: Rotation, deviceMotion: Vec3,
                       rotate: (Vec3, Rotation) -> Vec3, physicsEnabled: bool): seq<Event>
  {
    FrameTrace(SubSteps(LIMIT_DELTA, simRotation, deviceRotation))
      + (if physicsEnabled then [SetGravity(rotate(deviceMotion, deviceRotation).Add(InitialGravity()))] else [])
  }

  /** The body of `updateWorldRotation` up to the state updates: one pose
      per sub-step, an advance between consecutive poses, then gravity. */
  method RunFrame(simRotation: Rotation, deviceRotation: Rotation, deviceMotion: Vec3,
                  rotate: (Vec3, Rotation) -> Vec3, physicsEnabled: bool) returns (events: seq<Event>)
    ensures events == FrameEvents(simRotation, deviceRotation, deviceMotion, rotate, physicsEnabled)
  {
    var subdRotation := GetRotationSubSteps(LIMIT_DELTA, simRotation, deviceRotation);
    var n := |subdRotation|;
    events := [];
    for i := 0 to n
      invariant events == if i < n then Settled(subdRotation[..i]) else FrameTrace(subdRotation)
    {
      SettledStep(subdRotation, i);
      var subR := subdRotation[i];
      events := events + [SetGroundPose(subR)];
      if i != n - 1 {
        events := events + [AdvancePhysics0];
      }
    }
    if physicsEnabled {
      events := events + [SetGravity(rotate(deviceMotion, deviceRotation).Add(InitialGravity()))];
    }
  }

  /** When the rotated device motion is zero (as it is for the zero motion
      the world keeps, whenever rotating zero gives zero) the gravity set is
      the resting gravity, and it comes right after the final pose. */
  lemma {:induction false} FrameGravityAtRest(simRotation: Rotation, deviceRotation: Rotation,
                                              deviceMotion: Vec3, rotate: (Vec3, Rotation) -> Vec3)
    requires var m := rotate(deviceMotion, deviceRotation); m.x == 0.0 && m.y == 0.0 && m.z == 0.0
    ensures var t := FrameEvents(simRotation, deviceRotation, deviceMotion, rotate, true);
      |t| >= 2 && t[|t| - 1] == SetGravity(InitialGravity()) && t[|t| - 2] == SetGroundPose(deviceRotation)
  {
    var f := FrameTrace(SubSteps(LIMIT_DELTA, simRotation, deviceRotation));
    FrameEndsAtTarget(simRotation, deviceRotation);
    LastTwo(f, SetGravity(rotate(deviceMotion, deviceRotation).Add(InitialGravity())));
  }

  lemma LastTwo(f: seq<Event>, e: Event)
    requires |f| >= 1
    ensures var t := f + [e]; |t| >= 2 && t[|t| - 1] == e && t[|t| - 2] == f[|f| - 1]
  {
  }

  /** Rotating the zero vector by any pose gives the zero vector, as a
      rotation does. */
  ghost predicate RotatesZeroToZero(rotate: (Vec3, Rotation) -> Vec3) {
    forall q :: var m := rotate(Vec3(0.0, 0.0, 0.0), q); m.x == 0.0 && m.y == 0.0 && m.z == 0.0
  }

  class WorldState {
    var simRotation: Rotation
    var deviceRotation: Rotation
    var deviceMotion: Vec3
    var events: seq<Event>

    /** Nothing ever assigns the module-level `deviceMotion`. */
    ghost predicate Valid()
      reads this
    {
      deviceMotion == Zero()
    }

    /** The initial values of the module variables; no calls made yet. */
    constructor ()
      ensures Valid()
      ensures simRotation == Rotation(0.0, 0.0, 0.0) && deviceRotation == Rotation(0.0, 0.0, 0.0)
      ensures events == []
    {
      simRotation := Rotation(0.0, 0.0, 0.0);
      deviceRotation := Rotation(0.0, 0.0, 0.0);
      deviceMotion := Vec3(0.0, 0.0, 0.0);
      events := [];
    }

    /** The "deviceorientation" handler: a sample replaces `deviceRotation`
        only when all three angles are truthy (present and non-zero). */
    method OnDeviceOrientation(alpha: Option<real>, beta: Option<real>, gamma: Option<real>)
      modifies this`deviceRotation
      ensures Truthy(alpha) && Truthy(beta) && Truthy(gamma) ==>
        deviceRotation == ConvertDeviceOrientation(alpha.value, beta.value, gamma.value)
      ensures !(Truthy(alpha) && Truthy(beta) && Truthy(gamma)) ==> deviceRotation == old(deviceRotation)
    {
      if Truthy(alpha) && Truthy(beta) && Truthy(gamma) {
        deviceRotation := ConvertDeviceOrientation(alpha.value, beta.value, gamma.value);
      }
    }

    /** The "devicemotion" handler: the converted sample is bound to a local
        that shadows the module variable, so no state changes. */
    method OnDeviceMotion(acceleration: Option<Acceleration>)
      ensures deviceMotion == old(deviceMotion)
    {
      var deviceMotion := ConvertDeviceMotion(acceleration);
    }

    /** `updateWorldRotation`: the engine calls of `FrameEvents`, then the
        simulated rotation catches up with the device rotation. */
    method UpdateWorldRotation(rotate: (Vec3, Rotation) -> Vec3, physicsEnabled: bool)
      requires Valid()
      modifies this`simRotation, this`events
      ensures Valid()
      ensures deviceRotation == old(deviceRotation) && simRotation == deviceRotation
      ensures events == old(events) + FrameEvents(old(simRotation), deviceRotation, deviceMotion, rotate, physicsEnabled)
      // the motion stays zero, so with an engine the frame ends at rest on the device pose
      ensures physicsEnabled && RotatesZeroToZero(rotate) ==>
        |events| >= 2 && events[|events| - 1] == SetGravity(InitialGravity()) &&
        events[|events| - 2] == SetGroundPose(deviceRotation)
    {
      if physicsEnabled && RotatesZeroToZero(rotate) {
        WorldGravity(this, rotate);
      }
      var frame := RunFrame(simRotation, deviceRotation, deviceMotion, rotate, physicsEnabled);
      events := events + frame;
      simRotation := deviceRotation;
    }
  }

  /** The gravity the world sets: `deviceMotion` is never assigned, so it
      stays zero, and the gravity is the resting gravity whenever rotating
      zero gives zero; it follows the final pose, the device rotation. */
  lemma WorldGravity(w: WorldState, rotate: (Vec3, Rotation) -> Vec3)
    requires w.Valid() && RotatesZeroToZero(rotate)
    ensures var t := FrameEvents(w.simRotation, w.deviceRotation, w.deviceMotion, rotate, true);
      |t| >= 2 && t[|t| - 1] == SetGravity(InitialGravity()) && t[|t| - 2] == SetGroundPose(w.deviceRotation)
  {
    var m := rotate(Vec3(0.0, 0.0, 0.0), w.deviceRotation);
    assert m.x == 0.0 && m.y == 0.0 && m.z == 0.0;
    FrameGravityAtRest(w.simRotation, w.deviceRotation, w.deviceMotion, rotate);
  }
}
