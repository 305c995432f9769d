# TangramRobot core in Dafny

This project models two small applications of the TangramRobot repository.

The first is the kinematic tangram pusher, `TangramPusherKin`, file
`physics/application/TangramPusher_kinematic.cpp`. The model covers:

- the key-intent state machine: `dx`, `dz` and the force toggle `m_shouldApplyForce`, set by the key-down and key-up callbacks;
- the fixed per-tick translation `(2·dx, 0, 0.01·dz)` that `clientMoveAndDisplay` adds to the pusher's origin;
- the box-inertia approximation `getInertia`;
- the three `createDynamicRigidBody` overloads and their inertia-selection rule;
- the quantities `initScene` uses to build the kinematic pusher and the seven dynamic pieces: scaled base length, height and unit mass, and the mass multipliers.

The second is the CSS corner-detector viewer, file
`vision/application/css_analyzer.cpp`. The model covers:

- the contour thinning `getThinnedBoundary`;
- the per-pixel rule of `thresh`;
- the row selection of `printToFile`;
- the component-string builder `create_camcfg`.

## Layout

| file | module | what |
|---|---|---|
| `linear.dfy` | `Linear` | 3-vectors, quaternions, transforms |
| `pusher.dfy` | `Pusher` | key intents as values; the class `TangramPusherKin` with the two key callbacks and the per-tick step |
| `inertia.dfy` | `Inertia` | `getInertia` and its arithmetic properties |
| `rigid_bodies.dfy` | `RigidBodies` | the three `createDynamicRigidBody` overloads |
| `scene.dfy` | `Scene` | `initScene`: scaled constants, masses, the pusher body, the list of bodies |
| `thinning.dfy` | `Thinning` | `getThinnedBoundary` as a loop, proved against a recursive specification |
| `threshold.dfy` | `Threshold` | `thresh` as a loop writing into a fresh array |
| `corner_export.dfy` | `CornerExport` | the four dumps of `printToFile`, as loops producing their rows |
| `camcfg.dfy` | `CamCfg` | `create_camcfg` and its inverse |

### Modelling choices

- Engine routines and shape code are function-valued parameters. This covers Bullet's `calculateLocalInertia`, `Shapes::getInertiaTensor` and the hull shapes themselves. A hull is modelled by what `getInertia` reads of it: its bounding box under the identity transform, and its margin.
- `g_use_custom_inertia` is an explicit `bool` argument of the body factory. `Scene.UseCustomInertia` derives it from the parameter `use_custom_inertia_tensor == 1`, as line 230 does.
- A parameter map would be read by name. Here the values read become the fields of `RigidBodies.Params`.
- `Point post;` in `getThinnedBoundary` is default-constructed by ICL. Its value is the parameter `post0`. The `pre` register is written but never read, so it is dropped.
- `thresh` is a template but is only used with `Img8u`. The model takes three equally long channels of bytes.
  - The distance `d` is an `int` that accumulates `pow(double(...), 2.0)` results. Each result is an exact integer square, so the model sums integer squares.
- `printToFile` returns the lines each of its four files would receive. The file streams and their `operator<<` number formatting are not modelled.

### Behaviour of the code worth noting

- **The box inertia is discarded.** With `g_use_custom_inertia` false, line 145 computes the box approximation, and line 146 at once overwrites it with the engine's `calculateLocalInertia`. So the body always gets the engine's inertia, and the box formula has no effect. With the toggle on, the caller's inertia (`Shapes::getInertiaTensor`) is kept.
- **Seven dynamic pieces.** Lines 241-265 add seven dynamic pieces: two small triangles, a medium one, two large ones, a square and a parallelogram.
- **The inertia factor.** Line 124 uses the literal `0.08333333`. For half extents (1,1,1), no margin and mass 6 it gives 3.99999984 per axis (`Inertia.UnitCubeMassSix`).
- **Mass scaling.** Line 177 makes the unit mass `0.180·SCALING³`, despite its comment "don't scale the mass". With SCALING = 5 it is 22.5.

## Model

| member | source | states |
|---|---|---|
| Pusher.OnKeyDown | physics/application/TangramPusher_kinematic.cpp:91-100 | Space flips the force flag. 'a'/'d' touch only dx, 's'/'w' touch only dz, and no key but space touches the flag. Every other key changes nothing. The values 1/−1 for 'a'/'d' and −1/1 for 's'/'w' are stated by `Pusher.ApplyCharacterized` |
| Pusher.OnKeyUp | physics/application/TangramPusher_kinematic.cpp:84-89 | Releasing 'a'/'d' zeroes dx only, and releasing 's'/'w' zeroes dz only. The flag never changes, and any other key leaves the state as it was |
| Pusher.SpaceTwiceRestores | physics/application/TangramPusher_kinematic.cpp:97 | Space does not touch dx or dz, and pressing it twice restores the whole state |
| Pusher.ApplyKeepsRange | physics/application/TangramPusher_kinematic.cpp:84-100 | Intents that start in {−1, 0, 1} stay there under any sequence of key-down and key-up events |
| Pusher.ApplySnoc | physics/application/TangramPusher_kinematic.cpp:84-100 | Delivering one more event after a sequence is one more callback step |
| Pusher.ApplyCharacterized | physics/application/TangramPusher_kinematic.cpp:84-100 | After any event sequence, dx is whatever the latest 'a'/'d' event left, and dz whatever the latest 's'/'w' event left, or the initial value if there was none. The flag is flipped once per space press |
| Pusher.Tick | physics/application/TangramPusher_kinematic.cpp:59-64 | One tick adds exactly 2·dx to x and 0.01·dz to z. Rotation and y are unchanged. With intents in range the step is at most 2 in x and 0.01 in z |
| Pusher.TicksDisplacement | physics/application/TangramPusher_kinematic.cpp:59-64 | n ticks with a constant intent move x by 2·dx·n and z by 0.01·dz·n. They keep y and the rotation |
| Pusher.HoldLeftThreeTicks | physics/application/TangramPusher_kinematic.cpp:59-64 | After 'a', three ticks move the pusher exactly 6 along x |
| Pusher.TangramPusherKin.KeyboardCallback | physics/application/TangramPusher_kinematic.cpp:91-100 | The fields dx, dz and the flag become `OnKeyDown` of their old values. The key is forwarded to the base handler exactly when it is not one of a, d, s, w, space |
| Pusher.TangramPusherKin.KeyboardUpCallback | physics/application/TangramPusher_kinematic.cpp:84-89 | The fields become `OnKeyUp` of their old values |
| Pusher.TangramPusherKin.ClientMoveAndDisplay | physics/application/TangramPusher_kinematic.cpp:54-64 | When the world exists, the pusher pose becomes `Tick` of the old pose, whatever the measured time; otherwise it is unchanged |
| Inertia.GetInertia | physics/application/TangramPusher_kinematic.cpp:107-127 | The result is the box formula mass·0.08333333·(ly²+lz², lx²+lz², lx²+ly²). Each l is the bounding-box extent plus twice the margin |
| Inertia.InertiaNonNegative | physics/application/TangramPusher_kinematic.cpp:121-126 | All components are ≥ 0 when mass ≥ 0 |
| Inertia.InertiaOfCube | physics/application/TangramPusher_kinematic.cpp:121-126 | Equal extents give three equal components |
| Inertia.InertiaLinearInMass | physics/application/TangramPusher_kinematic.cpp:124-126 | Multiplying the mass by k multiplies the result by k |
| Inertia.InertiaBelowExact | physics/application/TangramPusher_kinematic.cpp:124 | Each component falls short of the exact mass/12 formula by exactly mass/(3·10⁸) times its sum of squares |
| Inertia.BoxInertiaScaling | physics/application/TangramPusher_kinematic.cpp:121-126 | The box formula scales as mass·length²: S³ on the mass and S on the extents give S⁵ |
| Inertia.InertiaScaling | physics/application/TangramPusher_kinematic.cpp:107-127 | Scaling the box and the margin by S and the mass by S³ scales the result by S⁵ |
| Inertia.UnitCubeMassSix | physics/application/TangramPusher_kinematic.cpp:114-126 | Half extents (1,1,1), margin 0 and mass 6 give 3.99999984 per axis |
| RigidBodies.CreateDynamicRigidBodyWithInertia | physics/application/TangramPusher_kinematic.cpp:141-159 | With the toggle off, the body's inertia is the engine's, whatever inertia was passed in. With the toggle on, it is the one passed in. Mass, transform, friction and restitution pass through. Damping is the configured pair. The body is dynamic and never deactivated |
| RigidBodies.CreateDynamicRigidBody | physics/application/TangramPusher_kinematic.cpp:134-139 | The body gets the engine's inertia under either toggle. All other fields are as in the full overload |
| RigidBodies.CreateDynamicRigidBodyAt | physics/application/TangramPusher_kinematic.cpp:129-132 | The body is placed at the position with the identity rotation (0,0,0,1). It gets the engine's inertia, and the material fields pass through |
| RigidBodies.ToggleOffDiscardsInertia | physics/application/TangramPusher_kinematic.cpp:144-146 | With the toggle off, two different inertias passed in yield the same body |
| RigidBodies.OverloadsAgree | physics/application/TangramPusher_kinematic.cpp:129-139 | For either setting of the toggle, the position overload builds the same body as the full overload does under that setting when given the engine's inertia |
| Scene.SceneMasses | physics/application/TangramPusher_kinematic.cpp:175-177 | m = 0.180·SCALING³ = 22.5. The seven pieces get m, m, 2m, 4m, 4m, 4m and 2m, which total 18m |
| Scene.PusherBody | physics/application/TangramPusher_kinematic.cpp:210-216 | The pusher has mass 0 and zero inertia. It is kinematic and never deactivated. It sits at (2.5a, a/2, 0) = (1.25, 0.25, 0) with the identity rotation, and has the pusher friction and restitution |
| Scene.SceneBodies | physics/application/TangramPusher_kinematic.cpp:228-265 | There are seven bodies, each with its piece's mass, its placement and the polygon material. Each has the engine's inertia when the parameter is not 1, and `getInertiaTensor` of the margin-inflated a and h otherwise |
| Scene.DefaultSceneIgnoresCustomTensors | physics/application/TangramPusher_kinematic.cpp:230-265 | With the parameter other than 1, the custom inertia tensors have no effect on any body |
| Thinning.ThinFrom | vision/application/css_analyzer.cpp:98-106 | The scan pushes at most one point per remaining input point. The first point pushed is the current register. Nothing is pushed exactly when every remaining input point is in the register's 8-neighbourhood |
| Thinning.GetThinnedBoundary | vision/application/css_analyzer.cpp:91-108 | The result depends on the input alone and is no longer than it. It is empty for fewer than 2 points. It starts with the last input point when non-empty, and it is empty exactly when every input point is within Chebyshev distance 1 of the last one |
| Thinning.RecordAfterPush | vision/application/css_analyzer.cpp:100-104 | A push at iteration i adds the current register, triggered by b[i], which lies outside its 8-neighbourhood. The next register is the point before b[i] |
| Thinning.RecordAfterSkip | vision/application/css_analyzer.cpp:105 | An iteration whose point is inside the register's 8-neighbourhood pushes nothing |
| Thinning.PushesFrom | vision/application/css_analyzer.cpp:98-106 | Each pushed point has an increasing trigger index. It lies outside the 8-neighbourhood of its trigger and inside that of every point scanned since the previous push. The next pushed point is the one just before the trigger. Every point after the last push is near the final register |
| Thinning.ThinnedPushes | vision/application/css_analyzer.cpp:94-106 | The same push record holds for the whole scan started at the last input point |
| Thinning.ThinnedPointsFromInput | vision/application/css_analyzer.cpp:95-105 | Every kept point is an input point. The one exception is the second, which may be the default-constructed `post` when the first input point triggered the first push |
| Threshold.Thresholded | vision/application/css_analyzer.cpp:68-78 | The result has one pixel per input pixel |
| Threshold.Thresh | vision/application/css_analyzer.cpp:65-80 | The fresh one-channel buffer holds exactly `Thresholded` of the three input channels |
| Threshold.ThreshPixelRule | vision/application/css_analyzer.cpp:72-78 | Each pixel is 0 or 255. It is 255 exactly when Σ_{c<3}(in[c][i] − ref[c])² < t·3·255² |
| Threshold.ThreshMonotone | vision/application/css_analyzer.cpp:72-78 | Raising t never turns a 255 pixel into 0 |
| Threshold.NonPositiveThresholdAllBlack | vision/application/css_analyzer.cpp:72-78 | With t ≤ 0 every pixel is 0 |
| Threshold.ReferencePixel | vision/application/css_analyzer.cpp:72-78 | A pixel equal to the reference colour is 255 exactly when t > 0 |
| Threshold.SqDistBounded | vision/application/css_analyzer.cpp:73-77 | A pixel's squared distance is at most 3·255² |
| Threshold.ThresholdAboveOneAllWhite | vision/application/css_analyzer.cpp:72-78 | With t > 1 every pixel is 255 |
| CornerExport.Group | vision/application/css_analyzer.cpp:230-233 | A candidate loop writes no more rows than it has candidates, every one of its given type, with an index in [0, n) |
| CornerExport.GroupAppend | vision/application/css_analyzer.cpp:230-233 | The loop keeps list order: the rows of a concatenation are the concatenated rows |
| CornerExport.GroupMembership | vision/application/css_analyzer.cpp:231-232 | Candidate c is written as c − offset exactly when 0 ≤ c − offset < n |
| CornerExport.CornerRowsShape | vision/application/css_analyzer.cpp:227-248 | The header "index type" comes first and only there. Every other row has an index in [0, n) and a type of at most 3. Types never decrease down the file, so the groups come in the order 0, 1, 2, 3. There are at most 1 + (number of candidates) rows |
| CornerExport.CornerRowsMembership | vision/application/css_analyzer.cpp:227-248 | Row (i, k) appears exactly when i + offset is in candidate list k and 0 ≤ i < n |
| CornerExport.AppendGroup | vision/application/css_analyzer.cpp:230-233 | A candidate loop appends exactly the `Group` rows of its list |
| CornerExport.DumpWindow | vision/application/css_analyzer.cpp:213-223 | Exactly n rows are written. Row k is entry offset + k |
| CornerExport.PrintToFile | vision/application/css_analyzer.cpp:202-251 | The boundary is written as it is. The smoothed boundary and the curvature are written as n rows, at indices offset … n+offset−1. The corner file is `CornerRows` |
| CamCfg.CreateCamcfg | vision/application/css_analyzer.cpp:19-21 | The result is "camcfg(", then the hint, then ")[@maxsize=5x2]". It is 22 characters longer than the hint, and the first argument is ignored |
| CamCfg.HintRoundTrip | vision/application/css_analyzer.cpp:19-21 | The hint can be read back from the string |
| CamCfg.HintOfInverse | vision/application/css_analyzer.cpp:19-21 | Every string of that form is what create_camcfg makes of its hint |
| CamCfg.CreateCamcfgInjective | vision/application/css_analyzer.cpp:19-21 | Two calls give equal strings exactly when their hints are equal |

## Left out

- `stepSimulation` and its sub-step cap (line 71): a call into the physics engine. The measured `usec` is therefore unused by the model.
- The engine's `calculateLocalInertia`, `getAabb` and `Shapes::getInertiaTensor`: foreign code. They are parameters.
- `Shapes.h` and the collision shapes: not part of this model. So are `recalcLocalAabb`, the cylinder shape, ground creation and world insertion.
- The solver configuration, gravity and the ground material (lines 162-173): configuration written straight into the engine.
- The placement literals of `initScene`: `sqrt(2)` and `M_PI` rotations are floating-point trigonometry. They are the `placements` parameter of `Scene.SceneBodies`.
- `myTickCallback`, `initPhysics`, `displayCallback`, `usleep`, `getDeltaTimeMicroseconds` and every `cout` line: diagnostics, timing and I/O.
- `DemoApplication::keyboardCallback`, the base handler for other keys: not part of this model. `Pusher.TangramPusherKin.KeyboardCallback` reports the forwarding as a flag.
- The initial values of `dx`, `dz` and `m_shouldApplyForce`: they are set in a header that is not part of this model. They are constructor arguments.
- The rounding of `float`, `btScalar`, `double` and `pow`: all arithmetic is on unbounded integers and reals.
  - `Threshold.Thresh`: the float product t·3·255² is exact here.
- The GUI of the vision tool, the `Mouse` handler and `refColor` updates, `drawInput`/`drawStep1-3`, the grabber, `RegionDetector`, `myrun` and `CornerDetectorCSS`: user interface and external ICL algorithms. So is `setCSSParameters`, a pass-through to the detector.
- The file streams of `printToFile` and their `operator<<` number formatting: I/O and float formatting. Only the rows each file receives are modelled.
- The `Mutex` locking in `thresh` and the `ExecThread` loop: concurrency.
- `Thinning.GetThinnedBoundary`: the model returns a fresh sequence. The source returns a reference to one static vector, which it clears on each call; its aliasing between calls is not modelled.
- `Threshold.Thresh`: the result image is modelled as a fresh array. The reuse of the caller's `Img8u` storage by `setChannels`/`setSize` is not modelled.
- `CornerExport.PrintToFile`: it requires `offset ≥ 0`, and at least `offset + n` smoothed-boundary and curvature entries. The source reads those entries without a bounds check and relies on the detector to provide them.
