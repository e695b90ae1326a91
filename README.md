# SpaceWanderMan flythrough core in Dafny

SpaceWanderMan is an OpenGL/GLUT flythrough of the solar system. This project
models the parts of it that keep state:

- the camera: a position, a `{forward, right, up}` basis, two speeds and two
  mouse angles, moved by the vector and rotation helpers;
- the orbiting bodies (planets with their moons, and wormholes), placed on
  circles by their periods;
- the solar system: the canonical one, the one drawn from `rand()`, the
  per-frame update, and the two proximity tests;
- the session globals of the main program, changed by the keyboard, mouse and
  display callbacks.

The source is imperative, and the model follows its form:

- The camera's four `float[3]` buffers, the rotation matrix and the
  out-parameters of the helpers and getters are `array<real>`. The `float
  position[3]` member of `Moon`, `Planet` and `Wormhole` is a `Vec3` value
  field, written whole by `calculatePosition`.
- `Camera`, `Moon`, `Planet`, `Wormhole`, `SolarSystem` and the session
  globals are classes whose methods update fields in place.
- Every method is proved against a value-level specification function.
- Lemmas state what the source promises about those functions.

| module (file) | models |
|---|---|
| `MathEnv` (env.dfy) | the C math functions and `distanceScale`, left uninterpreted; each law a proof needs is written as a predicate |
| `Geometry` (geometry.dfy) | vectors, 3x3 matrices, Rodrigues' rotation matrix and its vector form, the rotation lemmas |
| `Vectors` (vectors.dfy) | the free vector helpers of src/camera.cpp on `array<real>` buffers |
| `CameraModel` (camera_model.dfy) | the camera as a value: one function per `Camera` method, plus lemmas |
| `Cameras` (cameras.dfy) | class `Camera`, with the four embedded buffers, proved to follow `CameraModel` |
| `Orbits` (orbits.dfy) | the bodies and systems as values: `calculatePosition` and `calculatePositions` as functions |
| `Bodies` (bodies.dfy) | classes `Moon`, `Wormhole` and `Planet`, proved to follow `Orbits` |
| `SolarModel` (solar_model.dfy) | the canonical layout, the layout drawn from a `rand()` stream, the proximity min-fold, `hasPlanet` |
| `SolarSystems` (solar_system.dfy) | class `SolarSystem`: both constructors, the add methods, `calculatePositions`, the queries and the two tests |
| `SessionModel` (session_model.dfy) | the main-program globals as a value: `keyDown`, `keyUp`, `mouse` and `display` as functions; runs of events |
| `Sessions` (session.dfy) | class `Session`, holding the globals, the camera and the galaxy pointer, proved to follow `SessionModel` |

The model takes some things as inputs:

- `rand()` is an input sequence `rands` of values in `[0, 32767]`. 32767 is
  `RAND_MAX` of the Windows toolchain the program targets.
- `sin`, `cos`, `sqrt`, `atan` and `asin` are fields of an `Env` value.
- `distanceScale` is a field of the same value.

Some behaviour of the code is easy to misread. The model follows the code in
each case:

- `speedUp` doubles any speed below 1.0, so the speed can reach just under 2.0.
- `slowDown` halves any speed above 0.000001, so the speed can fall to just
  above 0.0000005.
- `hasPlanet('9')` is true when there are 10 planets: the test is
  `key - '0' < size`.
- Key 'a' sets `yawLeft` and key 'd' sets `yawRight`. No key sets
  `controls.left` or `controls.right`, so `display` never calls `left` or
  `right` (`SessionModel.RunsStaySteady`).
- `srand((int)time)` in `display` is followed by `SolarSystem(0)`, which calls
  `srand((int)time)` again with the same `time`. So the random constructor reads
  the stream from its first value, the same value that decided the swap.

## Model

| member | source | states |
|---|---|---|
| Vectors.VectorSet | src/camera.cpp:10-15 | the buffer holds exactly (x, y, z) |
| Vectors.VectorAdd | src/camera.cpp:18-23 | v1 becomes old v1 + old v2, component by component; v2 is not modified |
| Vectors.VectorCopy | src/camera.cpp:26-31 | v1 becomes old v2 |
| Vectors.VectorMul | src/camera.cpp:34-39 | every component is multiplied by the scalar |
| Vectors.LengthOfVec | src/camera.cpp:42-45 | where sqrt is lawful, the result is non-negative and its square is the sum of the squared components |
| Vectors.NormalizeVec | src/camera.cpp:48-51 | the buffer becomes the vector divided by its length; with lawful sqrt it is then a unit vector |
| Vectors.RotationMatrix | src/camera.cpp:54-71 | the first nine entries become Rodrigues' matrix for the axis and angle; entries 9..15 are untouched |
| Vectors.MulVecBy | src/camera.cpp:74-79 | v2 becomes the row-major matrix times v1 |
| Vectors.RotateAroundVec | src/camera.cpp:82-87 | v3 becomes v1 rotated around the axis v2 by the angle |
| Geometry.RodriguesAtZero | src/camera.cpp:54-71 | with sin 0 = 0 and cos 0 = 1, the matrix at angle 0 is the identity and rotation by 0 fixes every vector |
| Geometry.RodriguesOfTranspose | src/camera.cpp:60-70 | negating the sin term transposes the matrix: each off-diagonal pair differs only in that sign |
| Geometry.RodriguesNegatedIsTranspose | src/camera.cpp:56-70 | with sin odd and cos even, the matrix at -angle is the transpose of the matrix at angle |
| Geometry.MatrixIsVectorForm | src/camera.cpp:60-78 | the matrix product equals Rodrigues' vector formula v c + a (1 - c)(a.v) + (a x v) s |
| Geometry.RotateFixesAxis | src/camera.cpp:82-87 | rotating a unit axis around itself leaves it unchanged |
| Geometry.AxisDotUnchanged | src/camera.cpp:60-78 | the rotated vector keeps its dot product with a unit axis |
| Geometry.RotateInverse | src/camera.cpp:82-87 | with sin^2 + cos^2 = 1 and parity, rotating by -angle undoes rotating by angle around a unit axis |
| Geometry.NormalizedIsUnit | src/camera.cpp:48-51 | a vector divided by its lawful nonzero length has squared length 1 |
| CameraModel.Reset | src/camera.cpp:100-107 | the camera is the constructor's literals, with the mouse angles kept |
| CameraModel.SpeedUp | src/camera.cpp:141-145 | only the speed changes; it doubles when below 1.0 (staying below 2.0), otherwise nothing changes |
| CameraModel.SlowDown | src/camera.cpp:147-151 | only the speed changes; it halves when above 0.000001, otherwise nothing changes; a positive speed stays positive |
| CameraModel.SpeedBandInvariant | src/camera.cpp:141-151 | the band (0.0000005, 2.0) holds initially, after reset, and is kept by speedUp and slowDown |
| CameraModel.SlowDownUndoesSpeedUp | src/camera.cpp:141-151 | slowDown after speedUp restores the camera when the speed is in (0.0000005, 1.0) |
| CameraModel.SpeedUpUndoesSlowDown | src/camera.cpp:141-151 | speedUp after slowDown restores the camera when the speed is in (0.000001, 2.0) |
| CameraModel.MouseBasis | src/camera.cpp:231-241 | the yaw keeps the right vector's dot product with a unit up vector, and the pitch keeps the up vector's dot product with a unit steering right vector |
| CameraModel.MouseBasisAtRest | src/camera.cpp:231-241 | with both mouse angles 0 the steering basis is the stored basis |
| CameraModel.RotateKeepsAxisAngle | src/camera.cpp:82-87 | a rotation around a unit axis keeps the dot product with that axis |
| CameraModel.MoveForward | src/camera.cpp:153-161 | only the position changes |
| CameraModel.MoveBackward | src/camera.cpp:163-171 | only the position changes |
| CameraModel.MoveLeft | src/camera.cpp:173-181 | only the position changes |
| CameraModel.MoveRight | src/camera.cpp:183-191 | only the position changes |
| CameraModel.SteeringIgnoresPosition | src/camera.cpp:231-241 | the steering basis does not depend on the position |
| CameraModel.BackwardUndoesForward | src/camera.cpp:153-171 | backward after forward restores the camera exactly (over the reals) |
| CameraModel.ForwardUndoesBackward | src/camera.cpp:153-171 | forward after backward restores the camera exactly |
| CameraModel.RightUndoesLeft | src/camera.cpp:173-191 | right after left restores the camera exactly |
| CameraModel.LeftUndoesRight | src/camera.cpp:173-191 | left after right restores the camera exactly |
| CameraModel.YawLeft | src/camera.cpp:193-200 | only forward and right change; up, position, speeds and mouse angles stay |
| CameraModel.YawRight | src/camera.cpp:202-209 | only forward and right change |
| CameraModel.YawRightUndoesYawLeft | src/camera.cpp:193-209 | with a unit up vector and the trig laws at the turn speed, yawRight undoes yawLeft |
| CameraModel.YawLeftUndoesYawRight | src/camera.cpp:193-209 | and yawLeft undoes yawRight |
| CameraModel.YawKeepsAnglesToUp | src/camera.cpp:193-209 | both yaws keep the angles of forward and right with a unit up vector |
| CameraModel.PointAt | src/camera.cpp:125-139 | only the basis changes; the new right vector is horizontal (z = 0) |
| CameraModel.PointAtFacesTarget | src/camera.cpp:129-132 | the new forward vector scaled by the distance is the offset from the camera to the target |
| CameraModel.PointAtUnitVectors | src/camera.cpp:132-135 | with lawful sqrt, the new forward and right are unit vectors |
| CameraModel.HorizontalDeviation | src/camera.cpp:133-134 | the flattened quarter-turned forward has dot product cos(-1.57079632679) times (fx^2 + fy^2) with forward; it is exactly perpendicular only where that cosine is 0 or forward is vertical |
| CameraModel.HorizontalZeroIffVertical | src/camera.cpp:133-135 | with sin^2 + cos^2 = 1 and parity at the quarter turn and a lawful sqrt, the flattened vector has length 0 exactly when forward has no horizontal component |
| CameraModel.UnpointableIffVertical | src/camera.cpp:129-135 | under the same trig and sqrt laws, the second length pointAt divides by is 0 exactly when the target is straight above or below the camera |
| CameraModel.PointAtRightDeviation | src/camera.cpp:133-138 | right's dot product with the new forward is that deviation divided by the horizontal length; with a unit right, its dot product with the new up is the same |
| CameraModel.SetMouse | src/camera.cpp:211-229 | only the two mouse angles change |
| CameraModel.TrackballOutside | src/camera.cpp:217-222 | beyond radius 350, the pointer is scaled onto the rim with z = 0 |
| CameraModel.TrackballInside | src/camera.cpp:223-226 | within radius 350, the lifted point is on the sphere; z = 0 exactly on the rim |
| CameraModel.TrackballOnSphere | src/camera.cpp:214-228 | the projected point is on the hemisphere of radius 350, so y/350 is in [-1, 1]; z = 0 (x/z divides by zero) exactly when the radius is at least 350 |
| CameraModel.SetMouseYaw | src/camera.cpp:227 | off the rim, the yaw angle is atan(x / z) |
| Cameras.Camera.constructor | src/camera.cpp:89-98 | four fresh distinct buffers holding the initial camera |
| Cameras.Camera.Reset | src/camera.cpp:100-107 | the state becomes CameraModel.Reset of the old state |
| Cameras.Camera.TransformWithMouse | src/camera.cpp:231-241 | the three output buffers hold the mouse-turned basis; the stored basis is not modified |
| Cameras.Camera.Steering | src/camera.cpp:155-156 | three fresh buffers, holding the steering forward and right vectors |
| Cameras.Camera.Forward | src/camera.cpp:153-161 | the state becomes MoveForward of the old state; only the position buffer is written |
| Cameras.Camera.Backward | src/camera.cpp:163-171 | the state becomes MoveBackward of the old state |
| Cameras.Camera.Left | src/camera.cpp:173-181 | the state becomes MoveLeft of the old state |
| Cameras.Camera.Right | src/camera.cpp:183-191 | the state becomes MoveRight of the old state |
| Cameras.Camera.SpeedUp | src/camera.cpp:141-145 | the state becomes CameraModel.SpeedUp of the old state |
| Cameras.Camera.SlowDown | src/camera.cpp:147-151 | the state becomes CameraModel.SlowDown of the old state |
| Cameras.Camera.YawLeft | src/camera.cpp:193-200 | the state becomes CameraModel.YawLeft of the old state; only the forward and right buffers are written |
| Cameras.Camera.YawRight | src/camera.cpp:202-209 | the state becomes CameraModel.YawRight of the old state |
| Cameras.Camera.PointAt | src/camera.cpp:125-139 | the state becomes CameraModel.PointAt of the old state and the old target, for any target buffer |
| Cameras.Camera.SetMouse | src/camera.cpp:211-229 | the state becomes CameraModel.SetMouse of the old state |
| Orbits.Place | src/planet.cpp:22-34 | the pose has z = 0 and rotation * rotationTime = time * 360 |
| Orbits.Advance | src/moon.cpp:19-31 | the parameters are kept and the pose is recomputed |
| Orbits.AdvanceAll | src/planet.cpp:36-39 | every body is advanced to the same time, in order, and none is added or lost |
| Orbits.AdvancePlanet | src/planet.cpp:22-40 | the planet and each of its moons are advanced with the same time; the moon count is kept |
| Orbits.AdvanceSystem | src/solarsystem.cpp:120-130 | every planet (with its moons) and every wormhole is advanced to the same time; the counts are kept |
| Orbits.AdvancePlanets | src/solarsystem.cpp:122-125 | every planet is advanced, in order |
| Orbits.PlaceOnCircle | src/planet.cpp:25-30 | with sin^2 + cos^2 = 1, the position is on the circle of radius distance in the plane z = 0 |
| Orbits.PlaceAtCentre | src/planet.cpp:28-30 | a body at distance 0 is at the origin at every time |
| Orbits.AdvanceIdempotent | src/wormhole.cpp:22-34 | advancing twice to the same time is advancing once |
| Orbits.AdvancePlanetIdempotent | src/planet.cpp:22-40 | the same for a planet with its moons |
| Orbits.AdvanceSystemIdempotent | src/solarsystem.cpp:120-130 | the same for a whole system |
| Orbits.AdvanceKeepsLayout | src/solarsystem.cpp:120-130 | calculatePositions changes no constructor parameter and no count |
| Bodies.Moon.constructor | src/moon.cpp:10-17 | the parameters are exactly the arguments |
| Bodies.Moon.CalculatePosition | src/moon.cpp:19-31 | the state becomes Advance of the old state: planet-relative, the planet's position is not added |
| Bodies.Moon.GetPosition | src/moon.cpp:64-69 | the buffer holds the position times distanceScale |
| Bodies.Moon.GetRadius | src/moon.cpp:71-74 | the stored radius, not scaled |
| Bodies.Wormhole.constructor | src/wormhole.cpp:13-20 | the parameters are exactly the arguments |
| Bodies.Wormhole.CalculatePosition | src/wormhole.cpp:22-34 | the state becomes Advance of the old state |
| Bodies.Wormhole.RenderOrbit | src/wormhole.cpp:72-74 | changes nothing |
| Bodies.Wormhole.GetPosition | src/wormhole.cpp:76-81 | the buffer holds the position times distanceScale |
| Bodies.Wormhole.GetRadius | src/wormhole.cpp:83-86 | the stored radius, not scaled |
| Bodies.MoonStates | src/planet.cpp:36-39 | the moons' states in order |
| Bodies.Planet.constructor | src/planet.cpp:13-20 | the parameters are exactly the arguments, and there are no moons |
| Bodies.Planet.CalculatePosition | src/planet.cpp:22-40 | the state becomes AdvancePlanet of the old state; the moon list is the same objects |
| Bodies.Planet.GetPosition | src/planet.cpp:108-113 | the buffer holds the position times distanceScale |
| Bodies.Planet.GetRadius | src/planet.cpp:115-118 | the stored radius, not scaled |
| Bodies.Planet.AddMoon | src/planet.cpp:120-123 | one fresh moon with the arguments is appended; the earlier moons and the planet's own pose are unchanged |
| SolarModel.CanonicalShape | src/solarsystem.cpp:18-51 | 10 planets and 1 wormhole; the sun is at 0; the Earth is at 149600000 with a 365-day orbit and its one moon 7000000 out; the other planets have no moon; distances ascend; no period is 0 |
| SolarModel.RetryIndexPicks | src/solarsystem.cpp:84-87 | with 12 slots, the retry loop never reads out of bounds and picks an unflagged index in 1..11 |
| SolarModel.DrawIndexPicks | src/solarsystem.cpp:83-87 | the same, including the first draw |
| SolarModel.RetryDistanceInBand | src/solarsystem.cpp:93-96 | an accepted increment lies in [57910000, 120000000] |
| SolarModel.DrawDistanceInBand | src/solarsystem.cpp:92-96 | the same, including the first candidate |
| SolarModel.PrefixStep | src/solarsystem.cpp:89-113 | adding a drawn planet keeps the loop invariant |
| SolarModel.GenPlanetsShape | src/solarsystem.cpp:81-114 | the loop adds exactly `remaining` planets after the earlier ones and keeps the shape |
| SolarModel.GenPlanetsStep | src/solarsystem.cpp:81-114 | one loop turn: the rest of the generation continues from the next unread value, with the index flagged and the distance advanced |
| SolarModel.GenerateShape | src/solarsystem.cpp:55-118 | SolarSystem(0) builds one sun (sunPic[rand() % 3] at 0), then rand() % 5 + 5 planets (6 to 10 in all), then the fixed wormhole. The drawn planets have distinct texture indices in 1..11 and distances growing by a banded increment. The first planet's radius is in [3000, 4499], the later ones in [5000, 24999]. No period is 0 |
| SolarModel.BandedIsAscending | src/solarsystem.cpp:97-109 | banded increments make neighbouring distances strictly increase |
| SolarModel.AscendingStrictly | src/solarsystem.cpp:97-109 | and so the distances strictly increase along the whole sequence |
| SolarModel.CandidateFits | src/solarsystem.cpp:92 | a candidate increment is positive and below 2^31 - 1 (no int overflow) |
| SolarModel.AsWrittenFlagOverrun | src/solarsystem.cpp:64-87 | with the source's 11 flag slots, the stream 0, 0, 11 makes the first draw read flag[11] |
| SolarModel.CorrectedFlagInBounds | src/solarsystem.cpp:64-87 | with 12 slots, no draw leaves the flag array |
| SolarModel.SquaresStep | src/solarsystem.cpp:197-200 | one component loop turn adds that squared difference |
| SolarModel.SquaresUpToThree | src/solarsystem.cpp:197-200 | the three turns add up the squared distance |
| SolarModel.PlanetRadiusScale | src/solarsystem.cpp:202-206 | the scaled radius is at most 0.5, and it is the scaled radius itself when that is at most 0.5 |
| SolarModel.PlanetClearances | src/solarsystem.cpp:190-213 | one clearance per planet, in order |
| SolarModel.WormholeClearances | src/solarsystem.cpp:228-247 | one clearance per wormhole, in order |
| SolarModel.MinFoldIsMinimum | src/solarsystem.cpp:187-212 | the fold is at most 10000 and at most every clearance, and it is 10000 or one of them |
| SolarModel.MinFoldStep | src/solarsystem.cpp:209-212 | one turn moves the fold to the smaller of it and the new clearance |
| SolarModel.ProximityOfEmpty | src/solarsystem.cpp:187-249 | with no bodies, both tests return 10000 |
| SolarModel.PlanetProximityBound | src/solarsystem.cpp:201-212 | the planet test is at most each distance minus the clamped radius, and each clearance is at least the distance minus 0.5 |
| SolarModel.HasPlanetIndex | src/solarsystem.cpp:251-257 | for bytes from '0' up, true exactly when key - '0' < count; below '0', true only through the unsigned wrap-around |
| SolarSystems.GetBodyPosition | src/planet.cpp:108-113 | the buffer holds the body's position times distanceScale |
| SolarSystems.CopyPosition | src/solarsystem.cpp:182-186 | a fresh buffer holding the camera position |
| SolarSystems.CentreDistance | src/solarsystem.cpp:194-201 | the library sqrt of the squared distance between the two buffers |
| SolarSystems.DrawTextureIndex | src/solarsystem.cpp:83-87 | the index and next position that DrawIndex gives; the index is unflagged |
| SolarSystems.DrawIncrement | src/solarsystem.cpp:92-96 | the increment and next position that DrawDistance gives |
| SolarSystems.SolarSystem.constructor | src/solarsystem.cpp:10-52 | the layout is exactly the canonical layout |
| SolarSystems.SolarSystem.Random | src/solarsystem.cpp:55-118 | empty for mode != 0; for mode 0 the layout is Generate(rands) |
| SolarSystems.SolarSystem.AddRandomPlanets | src/solarsystem.cpp:81-114 | the planets become those GenPlanets gives; the wormholes are untouched |
| SolarSystems.SolarSystem.AddDrawnPlanet | src/solarsystem.cpp:89-112 | the drawn planet is appended, with the running distance advanced by the drawn increment |
| SolarSystems.SolarSystem.CalculatePositions | src/solarsystem.cpp:120-130 | the state becomes AdvanceSystem of the old state |
| SolarSystems.SolarSystem.AddPlanet | src/solarsystem.cpp:132-135 | one planet with the arguments and no moons is appended; the other bodies are unchanged |
| SolarSystems.SolarSystem.AddWormhole | src/solarsystem.cpp:137-140 | one wormhole with the arguments is appended; the other bodies are unchanged |
| SolarSystems.SolarSystem.AddMoon | src/solarsystem.cpp:142-145 | one moon is appended to planets[planetIndex] only; every other body is unchanged |
| SolarSystems.SolarSystem.GetPlanetPosition | src/solarsystem.cpp:169-172 | the buffer holds the planet's scaled position |
| SolarSystems.SolarSystem.GetRadiusOfPlanet | src/solarsystem.cpp:174-177 | the planet's unscaled radius |
| SolarSystems.SolarSystem.HasPlanet | src/solarsystem.cpp:251-257 | HasPlanetIndex for the current number of planets |
| SolarSystems.SolarSystem.TestDistanceWithPlanet | src/solarsystem.cpp:180-215 | the min-fold, from 10000, of the planet clearances (radii clamped to 0.5) |
| SolarSystems.SolarSystem.TestDistanceWithWormhole | src/solarsystem.cpp:218-249 | the min-fold, from 10000, of the wormhole clearances (radii not clamped) |
| SessionModel.Switch | src/main.cpp:435-482 | left, right, time and planetSelected are kept; fellDown is kept unless the key is 't' |
| SessionModel.KeyDown | src/main.cpp:423-484 | left, right and time are kept; fellDown is kept unless the key is 't' |
| SessionModel.KeyUp | src/main.cpp:487-504 | only the control flags change, and never left or right |
| SessionModel.Mouse | src/main.cpp:507-509 | only the two mouse angles of the camera change |
| SessionModel.FrameOutcome | src/main.cpp:216-250 | crash iff latched or planet clearance < 0.001; otherwise swap iff wormhole clearance < 0.001, and the swap is canonical iff rand() % 6 == 0 |
| SessionModel.Moves | src/main.cpp:253-256 | only the position changes, and not at all with no translation flag held |
| SessionModel.Yaws | src/main.cpp:257-258 | only forward and right change, and nothing with no yaw flag held |
| SessionModel.Dispatch | src/main.cpp:253-258 | only position, forward and right change; each is kept when its flags are not held |
| SessionModel.SwapLayout | src/main.cpp:241-248 | the canonical layout when rand() % 6 == 0, otherwise the drawn one |
| SessionModel.Decide | src/main.cpp:220-258 | only fellDown and the camera change; the latch is set iff it was set or the planet clearance is below 0.001 |
| SessionModel.Display | src/main.cpp:210-258 | time always grows by timeSpeed; only time, fellDown and the camera change; the latch rule holds |
| SessionModel.MovementKeyDown | src/main.cpp:455-466 | a movement key sets exactly its own flag and nothing else |
| SessionModel.MovementKeyUp | src/main.cpp:491-502 | its release clears exactly that flag |
| SessionModel.PressThenRelease | src/main.cpp:455-502 | pressing and releasing a movement key that was not held restores the globals |
| SessionModel.OtherKeyUp | src/main.cpp:487-504 | any other release changes nothing |
| SessionModel.TimeSpeedRestored | src/main.cpp:437-442 | '=' doubles timeSpeed; '=' then '-', and '-' then '=', restore the globals |
| SessionModel.TogglesTwice | src/main.cpp:443-448 | 'u' and 'o' flip their own flag only; pressing one twice restores the globals |
| SessionModel.DigitKey | src/main.cpp:425-433 | a rejected digit changes nothing; an accepted one selects an existing planet i = key - '0' and aims the camera at its scaled position, nothing else |
| SessionModel.CanonicalDigitsAccepted | src/solarsystem.cpp:251-257 | with the canonical 10 planets every digit '1'..'9' is accepted and names an existing planet |
| SessionModel.ResetKey | src/main.cpp:469-472 | 't' clears the latch and resets the camera, nothing else |
| SessionModel.SpeedKeys | src/main.cpp:449-454 | ',' is slowDown and '.' is speedUp, and both keep the speed band |
| SessionModel.DispatchReleased | src/main.cpp:253-258 | with no flag held the camera does not change |
| SessionModel.ForwardAndBackwardCancel | src/main.cpp:253-254 | holding forward and backward alone leaves the camera as it was |
| SessionModel.CrashedFrame | src/main.cpp:220-238 | a crashed frame only advances the time and sets the latch: no movement, no swap |
| SessionModel.FlyingFrames | src/main.cpp:240-258 | without contact, a wormhole frame dispatches from the reset camera and any other frame from the camera as it was |
| SessionModel.DispatchKeepsSpeeds | src/main.cpp:253-258 | the dispatch keeps both speeds |
| SessionModel.KeyDownKeepsSteady | src/main.cpp:423-484 | keyDown keeps the steady state: left and right not held, timeSpeed > 0, speed in band, turn speed 0.01 |
| SessionModel.DisplayKeepsSteady | src/main.cpp:210-258 | display keeps the steady state |
| SessionModel.StepKeepsSteady | src/main.cpp:423-509 | every enabled callback keeps the steady state |
| SessionModel.RunsStaySteady | src/main.cpp:423-509 | every run of callbacks from a steady state ends steady, so left and right are never held |
| SessionModel.StartIsSteady | src/main.cpp:158-167 | the start state is steady |
| SessionModel.RedrawAdvancesClock | src/main.cpp:213 | in a steady state, every frame moves the clock strictly forward |
| SessionModel.CrashIsLatched | src/main.cpp:220-238 | once crashed, every run without a 't' press stays crashed |
| Sessions.Session.constructor | src/main.cpp:155-167 | the globals are the start state, whose camera is the constructed one, and the galaxy is canonical |
| Sessions.Session.KeyDown | src/main.cpp:423-484 | the globals become SessionModel.KeyDown of the old globals; the galaxy is only read; steadiness is kept |
| Sessions.Session.SelectPlanet | src/main.cpp:428-432 | the camera points at the planet's scaled position and planetSelected is the index |
| Sessions.Session.SwitchKey | src/main.cpp:435-482 | the globals become Switch of the old globals |
| Sessions.Session.KeyUp | src/main.cpp:487-504 | the globals become SessionModel.KeyUp of the old globals |
| Sessions.Session.Mouse | src/main.cpp:507-509 | the globals become SessionModel.Mouse of the old globals |
| Sessions.Session.DispatchControls | src/main.cpp:253-258 | the camera becomes Dispatch of the old camera |
| Sessions.Session.DispatchMoves | src/main.cpp:253-256 | the camera becomes Moves of the old camera |
| Sessions.Session.DispatchYaws | src/main.cpp:257-258 | the camera becomes Yaws of the old camera |
| Sessions.Session.AdvanceFrame | src/main.cpp:213-218 | time grows by timeSpeed; the galaxy is advanced to the new time; both clearances are read from the camera |
| Sessions.Session.PassWormhole | src/main.cpp:241-250 | a fresh galaxy with SwapLayout(rands), and the camera reset |
| Sessions.Session.FinishFrame | src/main.cpp:220-258 | the globals become Decide of the old globals; the galaxy is replaced exactly on a swap |
| Sessions.Session.FlyOn | src/main.cpp:241-258 | on wormhole contact, a new galaxy and a dispatch from the reset camera; otherwise a dispatch from the camera as it was |
| Sessions.Session.Display | src/main.cpp:210-258 | the globals become SessionModel.Display of the old globals, with the clearances of the advanced galaxy; on a swap the galaxy is fresh with SwapLayout(rands), otherwise it is the advanced old one |

## Left out

- Floating-point rounding. Every `float` and `double` is a `real`. This
  includes the `2.552f` and `0.1f` literals and the `int` to `float`
  conversion in `mouse`. So the inverse-pair lemmas (forward then backward,
  '=' then '-') hold over the reals, not bit-exactly. It also includes the
  conversion of `(rand() + 1000) * (rand() + 1000)` to `float` in the random
  constructor (src/solarsystem.cpp:92 and 95), which can change control flow.
  For example, the draws 906 and 29383 give 57909998, which rounds to the
  float 57910000. The source accepts that candidate, while the model compares
  the exact integer, rejects it and draws two more values.
- The values of `sin`, `cos`, `sqrt`, `atan` and `asin`: they are
  uninterpreted. A lemma that needs a law names it in its `requires`
  (`TrigAt`, `SqrtAt`, `QuotientAt`), and no law is assumed.
  `distanceScale` (declared in a header that is not part of this model) is a
  parameter.
- Drawing: every `render` and `renderOrbit` body except the empty one of
  `Wormhole`, `drawCube`, the overlay quads of `display`,
  `transformOrientation`, `transformTranslation`, `reshape`, `timer`, `init`'s
  texture loading, `main`, and the TGA loader. These are graphics calls with no
  state of the model. Texture handles are an opaque `Texture` value.
- `Camera::saveImage` (key 'p') and `saveModel` (key 'b'): file output. In the
  model these keys change no state.
- `loadModel` (key 'n'): it overwrites the galaxy and the camera with raw bytes
  read from a file.
- SessionModel.KeyDown: requires key != 'n', because loadModel is not modelled.
- Sessions.Session.KeyDown: requires key != 'n', for the same reason.
- Sessions.Session.KeyDown: also requires that an accepted digit's planet
  position gives `pointAt` two nonzero lengths (`CanSelect`). The source
  divides by those lengths.
- Cameras.Camera.PointAt: requires both lengths that `normalizeVec` divides
  by to be nonzero, where the source would produce infinities or NaNs. The
  first is zero when the target is the camera position. With sin^2 + cos^2
  = 1 and parity at the quarter turn and a lawful sqrt, the second is zero
  exactly when the target is straight above or below the camera
  (`CameraModel.UnpointableIffVertical`).
- CameraModel.PointAt: requires the same two nonzero lengths (`CanPointAt`),
  for the same reason.
- CameraModel.PointAtRightDeviation: does not promise that right is
  perpendicular to forward. The source turns by 1.57079632679, just short of
  pi/2, and the model leaves cos(-1.57079632679) uninterpreted. So the lemma
  gives the dot product in terms of that cosine and does not bound it.
- Vectors.NormalizeVec: requires a nonzero length, for the same reason.
- Geometry.Normalized: requires a nonzero length, for the same reason.
- SessionModel.KeyDown: also requires `CanSelect`: an accepted digit's planet
  must give `pointAt` two nonzero lengths.
- SessionModel.Enabled: an event is enabled only when it is not 'n' and meets
  `CanSelect`. `SessionModel.Run` returns `None` on a run that reaches an event
  that is not enabled, so `SessionModel.RunsStaySteady` and `SessionModel.CrashIsLatched`
  say nothing about such runs.
- `srand`, `time()` seeding and the C library generator. The values `rand()`
  returns are an input sequence instead.
- SolarSystems.SolarSystem.Random: requires a stream long enough for every
  draw (`Generate(rands).Some?`), since the retry loops could otherwise run
  past the finite sequence.
- Sessions.Session.Display: requires the same of the stream it passes on.
- The order of the three `rand()` calls in one `addPlanet` call, and of the
  two in `(rand() + 1000) * (rand() + 1000)`. C++ leaves it unspecified, and
  the model takes them left to right.
- Zero periods: every constructor of a body requires `orbitTime` and
  `rotationTime` to be nonzero, because `calculatePosition` divides by them.
  All the periods the program passes are nonzero (`CanonicalShape`,
  `GenerateShape`).
- The pose of a freshly constructed body: C++ leaves it uninitialised until
  the first `calculatePosition`. The model leaves it unconstrained, and
  `Layout()` speaks only of the parameters.
- `std::vector<Planet>` copies: the solar system holds planet and wormhole
  values, the state of the objects that `push_back` copies. So no aliasing
  between a vector element and the temporary object is modelled.
- `planets.size()` is taken as a 32-bit unsigned `size_t` in `hasPlanet`'s
  comparison (the Windows x86 target). Its width only matters for counts
  within 48 of 2^32.
- The `time` global before `init` runs (zero by static initialisation): the
  session model starts after `init`.
- Some loops and branches of the source are helper methods with their own
  contracts, so that each proof stays small:
  - `SolarSystems.DrawTextureIndex`, `DrawIncrement`, `AddRandomPlanets` and
    `AddDrawnPlanet` split the random constructor;
  - `Cameras.Camera.Steering` is the `transformWithMouse` call that opens
    each of `forward`, `backward`, `left` and `right`;
  - `Sessions.Session.SelectPlanet`, `SwitchKey`, `DispatchMoves`,
    `DispatchYaws`, `AdvanceFrame`, `FinishFrame`, `FlyOn` and `PassWormhole`
    split `keyDown` and `display`.

  The statements and their order are the source's.

## Findings

| source | as written | input that shows it | evidently intended | confidence | as-written member | corrected member |
|---|---|---|---|---|---|---|
| src/solarsystem.cpp:64-87 | `bool flag[11]`, but the index is drawn as `rand() % 12`, so `while (flag[index])` can read `flag[11]`, one past the end (`other_planets[11]` in main.cpp also has 11 slots, yet `init` writes `other_planets[11]`) | a stream whose third value is 11, e.g. rand() = 0, 0, 11: the first planet's index is 11 | 12 slots, for the reserved index 0 and the textures 1..11 that `init` loads | not executed | SolarModel.AsWrittenFlagOverrun | SolarModel.CorrectedFlagInBounds |
