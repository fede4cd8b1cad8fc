# dice-roller: a Dafny model of the ground-tilting core

dice-roller is a browser game. A box-shaped arena with four dice on it is
tilted to follow the phone's orientation sensor. This project models the
parts of the game that compute something, and proves properties of them:

- **Rotations** (`rotation.dfy`): the immutable angle triple `Rotation` and its
  axis-by-axis arithmetic. This covers `normalize`, the shortest signed
  difference `dist`, `magSum`, and the sub-step generator
  `getRotationSubSteps`. The generator splits the way from the simulated pose
  to the device pose into increments whose `magSum` stays below a limit.
- **SensorHandling** (`sensor_handling.dfy`): the conversion of a
  `deviceorientation` sample (degrees) into a `Rotation` (radians), and of a
  `devicemotion` acceleration into the scene's axes.
- **World** (`world.dfy`): the three module variables `simRotation`,
  `deviceRotation` and `deviceMotion`, the two sensor handlers, and the
  per-frame `updateWorldRotation`. The frame assigns every sub-step pose to
  the ground, advances the physics engine by zero time between poses, and
  sets gravity at the end. The calls into the engine are recorded as events
  in call order.
- **Movement** (`movable_entity.dfy`): the integrator of `MovableEntity`:
  - the capped acceleration step;
  - the per-axis friction clamp;
  - the collision move, recorded as a displacement;
  - `applyAcceleration`.
- **GroundMesh** (`ground_mesh.dfy`): the vertex data of the ground mesh. One
  15-triangle box is emitted per wall cell of the fixed 8 x 10 grid, and an
  index buffer numbers the coordinate triples.
- **Boxes** (`box_factory.dfy`): the fluent `BoxFactory` builder with its
  name counter, and the entity script `makeEntities` that drives it.
- **JsMath** and **Vectors** (`jsmath.dfy`, `vectors.dfy`) hold the
  JavaScript number semantics and the slice of Babylon's `Vector3` that the
  core relies on:
  - `Math.PI`;
  - `%` truncating toward zero;
  - componentwise vector operations;
  - a length that is only assumed to be the Euclidean length.

Numbers are unbounded reals, not IEEE doubles. `Math.PI` is the literal
3.141592653589793. Library calls whose code is not part of this model are
parameters:
- Babylon's `length()` is a function `norm` with the property `IsNorm`;
- `rotateByQuaternionToRef` is a function `rotate`;
- whether a physics engine is attached is a boolean.

Observations about the code, all of which the model keeps as written:
- `convertDeviceOrientation` mirrors alpha after wrapping it once. A
  heading of 180 degrees therefore gives alpha = 2*PI, not 0, and the result
  lies in (0, 2*PI] rather than [0, 2*PI) (`ConvertHalfTurnExample`).
- `normalize` adds one turn to a negative axis and then applies JavaScript's
  `%`, which keeps the dividend's sign. An axis below -2*PI therefore lands
  in (-2*PI, 0]. It is negative (`NormalizeBelowMinusTurnExample`), except at
  whole multiples of 2*PI, which go to 0 (`NormalizeWholeTurnExample`). Every pose the sub-step
  generator builds from normal endpoints is above -2*PI, so it is brought
  into [0, 2*PI) (`InterpolatedIsNormal`).
- The `devicemotion` handler binds the converted sample to a local `const`
  that shadows the module variable. `deviceMotion` therefore stays (0, 0, 0),
  and gravity is always the rotated zero vector plus the resting gravity.
- `cube.t` lists 15 triangles. Three of them are repeated (`[0,1,5]`,
  `[1,2,6]`, `[2,3,7]`), so a box carries 12 distinct triangles and the
  mesh is 135 numbers per block.
- Switching the factory's prefix to "dice" does not reset its counter. The
  dice are named dice10 to dice13 (`MakeEntities`).

## Model

| member | source | states |
|---|---|---|
| JsMath.Trunc | src/game/util/Rotation.ts:27 | Rounding toward zero, as the quotient inside JavaScript's `%`: floor for non-negative values, ceiling for negative ones, and 0 strictly between -1 and 1. |
| JsMath.RemTwoPi | src/game/util/Rotation.ts:27 | `x % (2*PI)` takes the dividend's sign: the result is in [0, 2*PI) for x >= 0, in (-2*PI, 0] for x < 0, equals x when abs(x) < 2*PI, and differs from x by a whole number of turns. |
| JsMath.Abs | src/game/util/Rotation.ts:58 | `Math.abs`: non-negative and equal to x or -x. |
| Rotations.NormalizeAngle | src/game/util/Rotation.ts:25-29 | One axis of `normalize`: lands in [0, 2*PI) for inputs >= -2*PI and in (-2*PI, 0] below that; fixes values already in [0, 2*PI); changes the angle by a whole number of turns. |
| Rotations.Rotation.Normalize | src/game/util/Rotation.ts:25-29 | Every axis normal when all are >= -2*PI; every axis changed by a multiple of 2*PI. |
| Rotations.NormalizeIdempotent | src/game/util/Rotation.ts:25-29 | normalize(normalize(r)) == normalize(r) for axes >= -2*PI. |
| Rotations.NormalizeBelowMinusTurnExample | src/game/util/Rotation.ts:27 | -5*PI normalises to -PI, outside [0, 2*PI). |
| Rotations.NormalizeWholeTurnExample | src/game/util/Rotation.ts:27 | -4*PI, a whole number of turns below -2*PI, normalises to 0. |
| Rotations.Rotation.MagSum | src/game/util/Rotation.ts:57-59 | Non-negative, and zero exactly when all three axes are zero. |
| Rotations.Rotation.Operate | src/game/util/Rotation.ts:11-20 | No ensures of its own: combines two rotations axis by axis with the given function. Its partners are the inverse lemmas `SubAddInverse` and `DivMultInverse`, and `DistShortest` for `dist`. |
| Rotations.Rotation.OperateScalar | src/game/util/Rotation.ts:21-23 | No ensures of its own: maps one function over the three axes. Its partners are `DivScalarMultScalarInverse`, `AddScalarSubScalarInverse` and, for `normalize`, the ensures of `Normalize`. |
| Rotations.Rotation.Mult | src/game/util/Rotation.ts:31-33 | No ensures of its own: `operate` with `a * b`. Its partner is `DivMultInverse`. |
| Rotations.Rotation.Add | src/game/util/Rotation.ts:34-36 | No ensures of its own: `operate` with `a + b`. Its partner is `SubAddInverse`. |
| Rotations.Rotation.Sub | src/game/util/Rotation.ts:37-39 | No ensures of its own: `operate` with `a - b`. Its partner is `SubAddInverse`. |
| Rotations.Rotation.Div | src/game/util/Rotation.ts:40-42 | No ensures of its own: `operate` with `a / b`, for divisors with no zero axis. Its partner is `DivMultInverse`. |
| Rotations.Rotation.MultScalar | src/game/util/Rotation.ts:44-46 | No ensures of its own: every axis times `value`. Its partner is `DivScalarMultScalarInverse`. |
| Rotations.Rotation.AddScalar | src/game/util/Rotation.ts:47-49 | No ensures of its own: every axis plus `value`. Its partner is `AddScalarSubScalarInverse`. |
| Rotations.Rotation.SubScalar | src/game/util/Rotation.ts:50-52 | No ensures of its own: every axis minus `value`. Its partner is `AddScalarSubScalarInverse`. |
| Rotations.Rotation.DivScalar | src/game/util/Rotation.ts:53-55 | No ensures of its own: every axis divided by a non-zero `value`. Its partner is `DivScalarMultScalarInverse`. |
| Rotations.Rotation.Dist | src/game/util/Rotation.ts:61-71 | No ensures of its own: `operate` with the per-axis `AxisDist`. Its partners are `DistSelf` and `DistShortest`. |
| Rotations.SubAddInverse | src/game/util/Rotation.ts:31-39 | `sub` and `add` undo each other, in both orders. |
| Rotations.DivMultInverse | src/game/util/Rotation.ts:31-42 | `div` by a rotation with no zero axis is undone by `mult`. |
| Rotations.DivScalarMultScalarInverse | src/game/util/Rotation.ts:44-55 | `divScalar(v)` is undone by `multScalar(v)` for v != 0. |
| Rotations.AddScalarSubScalarInverse | src/game/util/Rotation.ts:44-55 | `addScalar(v)` is undone by `subScalar(v)`. |
| Rotations.AxisDist | src/game/util/Rotation.ts:61-71 | One axis of `dist`: zero from an angle to itself; for normal angles at most half a turn, and reaching the target up to one turn. |
| Rotations.DistSelf | src/game/util/Rotation.ts:61-71 | r.dist(r) is (0, 0, 0). |
| Rotations.DistShortest | src/game/util/Rotation.ts:61-71 | For normal rotations every axis of the delta has magnitude <= PI, and start + delta equals the target up to a whole number of turns. |
| Rotations.DistWrapsExample | src/game/util/Rotation.ts:63-65 | From 0.1 to 6.2 rad the delta is slightly negative: the short way back across 0. |
| Rotations.SubStepCount | src/game/util/Rotation.ts:82 | `floor(magSum(delta) / limitDelta) + 1` is at least 1. |
| Rotations.GetRotationSubSteps | src/game/util/Rotation.ts:74-91 | The loop returns the poses `step * i + rotA`, normalised, for i = 1 .. count-1, followed by `rotB`. |
| Rotations.SubStepsShape | src/game/util/Rotation.ts:82-89 | The result has floor(magSum / limitDelta) + 1 >= 1 elements, the i-th interpolated pose at position i-1, and `rotB` last. |
| Rotations.SubStepBelowLimit | src/game/util/Rotation.ts:81-83 | magSum(step) < limitDelta: each increment is below the limit. |
| Rotations.InterpolatedIsNormal | src/game/util/Rotation.ts:87 | For normal endpoints every intermediate pose lies in [0, 2*PI) on every axis. |
| Rotations.SubStepsAreNormal | src/game/util/Rotation.ts:74-91 | For normal endpoints every returned pose is normal. |
| Rotations.SubStepsOfSame | src/game/util/Rotation.ts:74-91 | From a pose to itself the result is exactly [pose]. |
| Rotations.SubStepCountOfSame | src/game/util/Rotation.ts:82 | From a pose to itself the count is 1. |
| Rotations.SubStepsZeroExample | src/game/World.ts:131 | With the world's limit 0.03, the zero pose to itself gives [zero pose]. |
| SensorHandling.DegToRad | src/game/SensorHandling.ts:9-11 | No ensures of its own: `(x / 180) * Math.PI`. Its partners are the ensures of `ConvertDeviceOrientation` and `ConvertHalfTurnExample`, which state the converted angles in terms of it. |
| SensorHandling.ConvertDeviceOrientation | src/game/SensorHandling.ts:4-20 | alpha becomes PI - alpha in radians, up to one turn, and lies in (0, 2*PI] for headings in [0, 360); beta and gamma are converted to radians and raised by one turn exactly when negative, so they land in [0, 2*PI) for inputs in [-360, 360). |
| SensorHandling.ConvertHalfTurnExample | src/game/SensorHandling.ts:13-15 | A heading of 180 degrees gives alpha = 2*PI. |
| SensorHandling.ConvertDeviceMotion | src/game/SensorHandling.ts:22-29 | null exactly when the sample is null or an axis is missing or zero; otherwise a vector that the inverse remap takes back to (x, y, z). |
| SensorHandling.DeviceFrameInverse | src/game/SensorHandling.ts:26 | The remap (x, y, z) -> (-x, z, -y) and its inverse undo each other in both directions. |
| SensorHandling.ZeroAxisIsDropped | src/game/SensorHandling.ts:25 | A zero axis counts as missing: {x: 0, y: 1, z: 0} gives null. |
| World.PosesAppend | src/game/World.ts:133-143 | The assigned poses and the advance count of a concatenation are those of its parts. |
| World.SettledAt | src/game/World.ts:133-143 | Settling k poses makes 2k events: pose i at 2i, an advance at 2i+1. |
| World.SettledPoses | src/game/World.ts:133-143 | Settling poses assigns exactly those poses, in order, with one advance each. |
| World.FrameTraceShape | src/game/World.ts:133-143 | One frame's loop makes 2n-1 events: poses at even positions in sub-step order, advances at odd positions, a pose last. |
| World.FrameTraceCounts | src/game/World.ts:133-143 | n-1 advances, and the assigned poses are exactly the sub-steps. |
| World.FrameTraceNoDoubleAdvance | src/game/World.ts:140-142 | No two advances are adjacent. |
| World.FrameEndsAtTarget | src/game/World.ts:131-143 | The last pose a frame assigns is the device rotation. |
| World.FrameInSync | src/game/World.ts:131-143 | When the simulated pose equals the device pose, the frame assigns it once and does not advance. |
| World.FrameEvents | src/game/World.ts:131-160 | No ensures of its own: the engine calls of one frame, being the frame trace of the sub-steps, then the gravity when an engine is present. Its partners are `RunFrame` (the loop computes it), `FrameTraceShape`, `FrameTraceCounts`, `FrameEndsAtTarget` and `FrameGravityAtRest`. |
| World.RunFrame | src/game/World.ts:131-160 | The loop and the gravity call produce exactly `FrameEvents`: the frame trace of the sub-steps, then the gravity when a physics engine is present. |
| World.FrameGravityAtRest | src/game/World.ts:147-160 | When the rotated motion is zero, the frame ends with the pose of the device rotation followed by gravity (0, -1, 0). |
| World.WorldGravity | src/game/World.ts:147-160 | For the world's state, whose `deviceMotion` the shadowing handler never assigns and so stays zero, and any `rotate` that takes zero to zero: the frame ends with the device pose followed by gravity (0, -1, 0). |
| World.WorldState.constructor | src/game/World.ts:76-80 | Both rotations are (0, 0, 0), the motion is zero, and no calls have been made. |
| World.WorldState.OnDeviceOrientation | src/game/World.ts:83-87 | `deviceRotation` becomes the converted sample when all three angles are truthy, and is unchanged otherwise. |
| World.WorldState.OnDeviceMotion | src/game/World.ts:89-91 | The module's `deviceMotion` is unchanged. |
| World.WorldState.UpdateWorldRotation | src/game/World.ts:128-161 | The frame's engine calls are appended; `simRotation` becomes `deviceRotation`, which is unchanged, as is the zero motion; with an engine and a `rotate` that takes zero to zero, the last two calls are the device pose and gravity (0, -1, 0). |
| Movement.ClampAxis | src/components/Entities/MovableEntity.ts:30-38 | The clamped component is no larger in magnitude than the speed component; it is the negated speed when the raw component is larger, and the raw component otherwise. |
| Movement.Friction | src/components/Entities/MovableEntity.ts:28-40 | Every axis of the friction is at most the speed's axis in magnitude. |
| Movement.MovableEntity.GetFrictionVector | src/components/Entities/MovableEntity.ts:28-40 | The three conditional overwrites compute `Friction` of the speed and its normalised direction. |
| Movement.FrictionTowardRest | src/components/Entities/MovableEntity.ts:28-46 | For maxAcceleration >= 0, adding the friction moves every axis toward 0 without passing it. |
| Movement.DominatedNoLonger | src/components/Entities/MovableEntity.ts:30-38 | A vector dominated axis by axis has no greater length. |
| Movement.FrictionNoFaster | src/components/Entities/MovableEntity.ts:46 | For maxAcceleration >= 0, friction never increases the speed's length. |
| Movement.MoveSpeed | src/components/Entities/MovableEntity.ts:42-46 | No ensures of its own: the speed after one `move`, where the acceleration is added when the two lengths sum to at most `maxSpeed`, then the friction of the result. Its partners are `MoveSpeedBound`, `FrictionTowardRest` and `FrictionNoFaster`, and `Move` computes it. |
| Movement.MoveSpeedBound | src/components/Entities/MovableEntity.ts:42-46 | For maxAcceleration >= 0, the speed after a move is at most max(maxSpeed, old speed). |
| Movement.MovableEntity.constructor | src/components/Entities/MovableEntity.ts:11-26 | The limits as passed, with 0 as the default, zero speed and acceleration, and no moves yet. |
| Movement.MovableEntity.Move | src/components/Entities/MovableEntity.ts:42-51 | The new speed is `MoveSpeed` of the old one, and a collision move by it is recorded exactly when it is longer than 0.001. |
| Movement.MovableEntity.Tick | src/components/Entities/MovableEntity.ts:53-81 | One move. When `norm` is the Euclidean length and maxAcceleration >= 0, the speed never exceeds max(maxSpeed, old speed), and a speed within the cap stays within it. |
| Movement.MovableEntity.ApplyAcceleration | src/components/Entities/MovableEntity.ts:83-85 | The acceleration is the unit direction scaled by `maxAcceleration`: length abs(maxAcceleration) for a non-zero input, zero for zero. |
| Movement.ScaledDirectionLength | src/components/Entities/MovableEntity.ts:84 | Scaling the normalised direction by m gives length abs(m), or zero for the zero vector. |
| Movement.PushOnce | src/components/Entities/MovableEntity.ts:42-51 | From rest, pushing along +x with maxAcceleration m <= maxSpeed gives speed (m/2, 0, 0), which makes a collision move when m/2 > 0.001. |
| Vectors.NormalizedLength | src/components/Entities/MovableEntity.ts:29 | Normalising gives length 1 for a non-zero vector and zero for zero. |
| Vectors.Triangle | src/components/Entities/MovableEntity.ts:43-44 | length(u + v) <= length(u) + length(v). |
| GroundMesh.CubeFacesValid | src/components/Entities/GroundMeshGenerator.ts:106-133 | 15 triangles, each of three corner indices within `cube.v`. |
| GroundMesh.FaceDataAt | src/components/Entities/GroundMeshGenerator.ts:75-93 | A face's data has 3 numbers per index, and triple k is corner k scaled and moved. |
| GroundMesh.GenerateFace | src/components/Entities/GroundMeshGenerator.ts:75-93 | The loop returns the placed corners of the face, in order. |
| GroundMesh.FacesDataLength | src/components/Entities/GroundMeshGenerator.ts:65-71 | Three-corner faces give 9 numbers each. |
| GroundMesh.CubeData | src/components/Entities/GroundMeshGenerator.ts:56-73 | A box is 135 numbers. |
| GroundMesh.GenerateCube | src/components/Entities/GroundMeshGenerator.ts:56-73 | The loop concatenates the triangles' data in `cube.t` order; position 0 and scale 1 by default. |
| GroundMesh.CellsDataLength | src/components/Entities/GroundMeshGenerator.ts:38-51 | A row yields 135 numbers per 1 cell. |
| GroundMesh.RowsDataLength | src/components/Entities/GroundMeshGenerator.ts:37-52 | A grid yields 135 numbers per 1 cell. |
| GroundMesh.GridRowOnes | src/components/Entities/GroundMeshGenerator.ts:95-104 | The blocks per row of the fixed grid: 10, 2, 4, 2, 2, 6, 2, 10. |
| GroundMesh.GridSize | src/components/Entities/GroundMeshGenerator.ts:33-54 | The fixed grid has 38 blocks, 5130 numbers. |
| GroundMesh.GenerateRows | src/components/Entities/GroundMeshGenerator.ts:37-52 | The two loops return the boxes of the 1 cells in row-major order, cell (i, j) at (posX + 2i, 0, posZ + 2j) with scale (2, 1, 2). |
| GroundMesh.GenerateGrid | src/components/Entities/GroundMeshGenerator.ts:33-54 | `GenerateRows` over the fixed grid. |
| GroundMesh.EveryThirdAt | src/components/Entities/GroundMeshGenerator.ts:28 | The filter on index % 3 == 0 keeps ceil(n/3) entries, entry k being entry 3k. |
| GroundMesh.GenerateVertexData | src/components/Entities/GroundMeshGenerator.ts:20-31 | The positions are the grid at (-8, -8), 5130 numbers; the indices are 0 .. 1709, one per triple. |
| Boxes.Decimal | src/game/util/BoxFactory.ts:47 | The counter's numeral is non-empty, all digits, with no leading zero, and one digit exactly below 10. |
| Boxes.DecimalRoundTrip | src/game/util/BoxFactory.ts:47 | Parsing the numeral gives the counter back. |
| Boxes.NamesDistinct | src/game/util/BoxFactory.ts:47 | Under one prefix two names are equal exactly when the counters are. |
| Boxes.BoxFactory.constructor | src/game/util/BoxFactory.ts:17-24 | Counter 0, empty prefix, mass 0, size (0, 0, 0), the scene's default material, no boxes. |
| Boxes.BoxFactory.WithSize | src/game/util/BoxFactory.ts:26-29 | Only the size changes, and the same builder is returned. |
| Boxes.BoxFactory.WithPrefix | src/game/util/BoxFactory.ts:30-33 | Only the prefix changes; the counter goes on. |
| Boxes.BoxFactory.WithMaterial | src/game/util/BoxFactory.ts:35-38 | Only the material changes. |
| Boxes.BoxFactory.WithMass | src/game/util/BoxFactory.ts:40-43 | Only the mass changes. |
| Boxes.BoxFactory.Make | src/game/util/BoxFactory.ts:45-65 | The box is named prefix + counter, with the current size, material and mass, at (x, y, z), with restitution 0.9 and friction 0.02; it is appended and the counter moves on by one. |
| Boxes.ScriptNamesListed | src/game/EntitySetup.ts:16-58 | The script's names are ground0 .. ground9, then dice10 .. dice13. |
| Boxes.NamedFromStep | src/game/util/BoxFactory.ts:47-51 | One more box named by the prefix and its position keeps the run named and leaves the earlier boxes alone. |
| Boxes.MakeMarkers | src/game/EntitySetup.ts:20-23 | Four boxes under the current prefix, numbered on from the counter. |
| Boxes.MakeGround | src/game/EntitySetup.ts:25-45 | Six boxes under the current prefix, numbered on from the counter. |
| Boxes.MakeDice | src/game/EntitySetup.ts:47-58 | Four boxes under "dice", numbered on from the counter. |
| Boxes.ScriptNamesOf | src/game/EntitySetup.ts:15-58 | Ten "ground" boxes numbered from 0, then four "dice" boxes numbered on, give the script's names. |
| Boxes.MakeEntities | src/game/EntitySetup.ts:4-59 | The script makes 14 boxes named ground0 .. ground9, dice10 .. dice13. |

## Left out

- Rendering, the UI (`makeUi`), scene and camera setup, the resize handler,
  the render loop, `initializeScene`, `generateGroundMesh`'s material and
  mesh objects, and `Entity.ts`. They are library plumbing with no logic of
  their own.
- `Quaternion.RotationYawPitchRoll`: the pose is recorded as the assigned
  `Rotation`. `rotateByQuaternionToRef` is the parameter `rotate`, because
  its quaternion arithmetic is library code that is not part of this model.
- Babylon's `length()` is the parameter `norm`, of which the model assumes
  only that it is the Euclidean length (non-negative, and its square is
  x^2 + y^2 + z^2).
- IEEE doubles: rounding, infinities and NaN. Arithmetic is exact here.
  `Rotation.div` and `divScalar` therefore require non-zero divisors.
- Rotations.Rotation.Normalize: its results are proved normal only for axes
  >= -2*PI. Below that the code brings an axis only into (-2*PI, 0], which is
  negative except at whole multiples of 2*PI. `NormalizeBelowMinusTurnExample`
  shows a negative result.
- `getPhysicsEngine()?.` is the boolean `physicsEnabled`.
- `scene.meshes[4]` is taken to be the ground. Which mesh sits at index 4
  depends on the creation order in the library.
- World.FrameGravityAtRest: it takes any motion and requires that `rotate`
  turns that motion into zero. `WorldGravity` derives that requirement for the
  world's own zero motion from the assumption that `rotate` takes zero to
  zero. That assumption is not proved, because `rotate` is a parameter.
- Movement.MovableEntity.ApplyAcceleration: the source normalises the
  caller's vector in place (`normalize()`). The model leaves the argument
  untouched, because Dafny values cannot model that aliasing.
- Movement.MovableEntity.Tick: the base class's `tick` (it re-reads the mesh
  position) and the commented-out heading code are not modelled.
  `maxSpeedAng` is stored but never read.
- Movement.PushOnce: the worked example is stated over maxAcceleration m and
  any push along +x, rather than for the numbers 0.2 and 1 alone.
- `mesh.moveWithCollisions`: physics and collisions are out of scope. The
  displacement passed is recorded.
- GroundMesh.GenerateCube and GenerateFace: the six placement numbers are
  passed as two vectors. `push`/`splice` onto fresh arrays are sequence
  appends.
- Boxes.BoxFactory.Make: `BoxBuilder.CreateBox`, `PhysicsImpostor` and the
  material assignment are recorded as one `Box` value. Materials are known
  by name only (colours and alpha are not modelled), and the `scene` field
  is not modelled.
- Boxes.MakeEntities: `ground5.parent = ground0` and the other parent links
  are not modelled. The script is split into three methods, at the lines
  they cite.
